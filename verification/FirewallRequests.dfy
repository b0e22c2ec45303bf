/** What users ask of security groups, each a transaction that counts up the
    generation of every live instance whose firewall it changes. */
module FirewallRequests {
  import opened Types
  import opened FirewallRules
  import opened FirewallState
  import opened FirewallSync
  import opened Backends

  const MAX_GROUPS_PER_INSTANCE := 5
  const MAX_RULES_PER_DIRECTION := 60

  /** A rule as a user sends it; an address block that does not parse is None. */
  datatype RuleRequest = RuleRequest(
    protocol: Option<Protocol>, fromPort: Option<int>, toPort: Option<int>, cidr: Option<Prefix>, described: bool)

  predicate Masked(p: Prefix) { p.address % Span(p) == 0 }

  /** A rule the cloud accepts: a clean address block, ports where there are any, and
      ICMP of the block's own kind. */
  predicate Acceptable(r: RuleRequest) {
    && r.cidr.Some? && Masked(r.cidr.value) && r.protocol.Some? && r.described
    && match r.protocol.value
       case Tcp => PortsInOrder(r.fromPort, r.toPort)
       case Udp => PortsInOrder(r.fromPort, r.toPort)
       case Icmp => r.fromPort.None? && r.toPort.None? && !r.cidr.value.v6
       case Icmpv6 => r.fromPort.None? && r.toPort.None? && r.cidr.value.v6
       case All => r.fromPort.None? && r.toPort.None?
  }

  function RowOf(r: RuleRequest, id: RuleId, group: GroupId, d: Direction): GroupRule
    requires Acceptable(r)
  {
    GroupRule(id, group, d, r.protocol.value, r.fromPort, r.toPort, r.cidr.value)
  }

  /** Either every request becomes a rule, in order, or nothing does. */
  method ValidateRules(group: GroupId, d: Direction, requests: seq<RuleRequest>, ids: seq<RuleId>)
    returns (rules: Option<seq<GroupRule>>)
    requires |ids| == |requests|
    ensures rules.Some? <==> requests != [] && forall k :: 0 <= k < |requests| ==> Acceptable(requests[k])
    ensures rules.Some? ==> |rules.value| == |requests| && AllValidated(rules.value)
    ensures rules.Some? ==> forall k :: 0 <= k < |requests| ==> rules.value[k] == RowOf(requests[k], ids[k], group, d)
  {
    if requests == [] {
      return None;
    }
    var made: seq<GroupRule> := [];
    for n := 0 to |requests|
      invariant |made| == n && AllValidated(made)
      invariant forall k :: 0 <= k < n ==> Acceptable(requests[k]) && made[k] == RowOf(requests[k], ids[k], group, d)
    {
      var r := requests[n];
      if r.cidr.None? {
        return None;
      }
      var prefix := r.cidr.value;
      if prefix.address % Span(prefix) != 0 {
        return None;
      }
      if r.protocol.None? {
        return None;
      }
      match r.protocol.value {
        case Tcp =>
          if r.fromPort.None? || r.toPort.None? || r.fromPort.value < 0 || r.toPort.value > 65535
            || r.fromPort.value > r.toPort.value {
            return None;
          }
        case Udp =>
          if r.fromPort.None? || r.toPort.None? || r.fromPort.value < 0 || r.toPort.value > 65535
            || r.fromPort.value > r.toPort.value {
            return None;
          }
        case _ =>
          if r.fromPort.Some? || r.toPort.Some? {
            return None;
          }
      }
      if (r.protocol.value.Icmp? && prefix.v6) || (r.protocol.value.Icmpv6? && !prefix.v6) || !r.described {
        return None;
      }
      made := made + [GroupRule(ids[n], group, d, r.protocol.value, r.fromPort, r.toPort, prefix)];
    }
    return Some(made);
  }

  // --------------------------------------------------- counting generations up

  /** Every live instance with the group has its generation counted up, nobody else's row changes. */
  function Bumped(rows: map<InstanceId, FwRow>, g: GroupId): map<InstanceId, FwRow> {
    map i | i in rows ::
      if rows[i].live && g in rows[i].groups then rows[i].(generation := rows[i].generation + 1) else rows[i]
  }

  /** Of the rows only those of the group's live instances have changed, and those only in
      that their generation has been counted up. */
  ghost predicate CountedUp(rows: map<InstanceId, FwRow>, rows': map<InstanceId, FwRow>, g: GroupId) {
    && rows'.Keys == rows.Keys
    && forall i | i in rows ::
         rows'[i] == rows[i].(generation := rows[i].generation + if rows[i].live && g in rows[i].groups then 1 else 0)
  }

  lemma BumpedCounts(rows: map<InstanceId, FwRow>, g: GroupId)
    ensures CountedUp(rows, Bumped(rows, g), g)
  {
  }

  /** Changing one group's rules and counting up its members is all others may do at once. */
  lemma BumpRely(s: FwState, g: GroupId, changed: seq<GroupRule>)
    requires FwOK(s) && g in s.rules
    ensures FwRely(s, s.(rows := Bumped(s.rows, g), rules := s.rules[g := changed]))
  {
    var s' := s.(rows := Bumped(s.rows, g), rules := s.rules[g := changed]);
    forall i | i in s.rows ensures i in s'.rows && RowRely(s, s', i) {
    }
  }

  /** Two rules a group may not both have. */
  predicate SameRule(a: GroupRule, b: GroupRule) {
    a.direction == b.direction && a.protocol == b.protocol && a.fromPort == b.fromPort && a.toPort == b.toPort
      && a.cidr == b.cidr
  }

  ghost predicate NoTwoSame(rules: seq<GroupRule>, n: nat)
    requires n <= |rules|
  {
    forall j, k :: 0 <= j < k < n ==> rules[j] != rules[k].(id := rules[j].id, group := rules[j].group)
  }

  method HasTwoSame(rules: seq<GroupRule>) returns (found: bool)
    ensures found <==> !NoTwoSame(rules, |rules|)
  {
    for k := 0 to |rules|
      invariant NoTwoSame(rules, k)
    {
      for j := 0 to k
        invariant forall m :: 0 <= m < j ==> rules[m] != rules[k].(id := rules[m].id, group := rules[m].group)
      {
        if SameRule(rules[j], rules[k]) {
          return true;
        }
      }
    }
    return false;
  }

  /** What came before stays on record, and no VM is touched. */
  ghost predicate Appended(before: seq<FwState>, after: seq<FwState>, vms: map<InstanceId, VmFirewall>) {
    && |before| <= |after| && after[..|before|] == before
    && forall k :: |before| <= k < |after| ==> KeepsVms(vms, after[k])
  }

  /** Nothing that was on record is forgotten. */
  ghost predicate Longer(before: seq<FwState>, after: seq<FwState>) { before <= after }

  lemma Growing()
    ensures forall a :: Longer(a, a)
    ensures forall a, b, c :: Longer(a, b) && Longer(b, c) ==> Longer(a, c)
    ensures forall a, s :: Longer(a, a + [s])
    ensures forall a, b, vms :: Appended(a, b, vms) ==> Longer(a, b)
  {
    forall a, b, vms | Appended(a, b, vms) ensures Longer(a, b) {
      assert b[..|a|] == a;
    }
  }

  ghost predicate KeepsVms(vms: map<InstanceId, VmFirewall>, s: FwState) {
    forall i :: i in vms ==> i in s.vms && s.vms[i] == vms[i]
  }

  /** The rules a list of acceptable requests asks for. */
  function Asked(requests: seq<RuleRequest>, ids: seq<RuleId>, g: GroupId, d: Direction): seq<GroupRule>
    requires |ids| == |requests| && forall k :: 0 <= k < |requests| ==> Acceptable(requests[k])
  {
    seq(|requests|, k requires 0 <= k < |requests| => RowOf(requests[k], ids[k], g, d))
  }

  /** Rules may be added if there are any, all are acceptable, none is there already or
      asked for twice, and there is room for them. */
  ghost predicate MayAdd(s: FwState, g: GroupId, d: Direction, requests: seq<RuleRequest>, ids: seq<RuleId>) {
    && requests != [] && |ids| == |requests| && (forall k :: 0 <= k < |requests| ==> Acceptable(requests[k]))
    && g in s.rules && |Select(s.rules[g], d)| + |requests| <= 60
    && var all := s.rules[g] + Asked(requests, ids, g, d); NoTwoSame(all, |all|)
  }

  method AuthorizeRules(
    c: Firewalls, g: GroupId, d: Direction, requests: seq<RuleRequest>, ids: seq<RuleId>, authorized: bool)
    returns (reply: Reply)
    requires c.Valid() && |ids| == |requests|
    modifies c
    ensures Longer(old(c.history), c.history) && c.trouble == old(c.trouble)
    ensures c.Valid() && FwRely(old(c.Now()), c.Now()) && Appended(old(c.history), c.history, old(c.vms))
    ensures reply.Refused? ==>
              && c.Now() == old(c.Now())
              && reply.code == if requests == [] || exists k :: 0 <= k < |requests| && !Acceptable(requests[k])
                               then InvalidParameter
                               else if g !in old(c.rules) || !authorized then NotFound
                               else if |Select(old(c.rules)[g], d)| + |requests| > 60
                               then LimitExceeded else Duplicate
    ensures reply.Granted? <==> authorized && MayAdd(old(c.Now()), g, d, requests, ids)
    ensures reply.Granted? ==>
              && c.Now() == old(c.Now()).(
                   rows := c.rows, rules := old(c.rules)[g := old(c.rules)[g] + Asked(requests, ids, g, d)])
              && CountedUp(old(c.rows), c.rows, g)
  {
    hide NoTwoSame, Acceptable, FwRely, FwOK, GroupsOK, MembersOK, Bumped, CountedUp, Longer;
    Growing();
    assert FwOK(c.Now());
    SafeGroups(c.Now());
    FwRelySelf(c.Now());
    var rules := ValidateRules(g, d, requests, ids);
    if rules.None? {
      return Refused(InvalidParameter);
    }
    assert rules.value == Asked(requests, ids, g, d);
    if g !in c.rules || !authorized {
      return Refused(NotFound);
    }
    if |Select(c.rules[g], d)| + |rules.value| > MAX_RULES_PER_DIRECTION {
      return Refused(LimitExceeded);
    }
    var all := c.rules[g] + rules.value;
    var twice := HasTwoSame(all);
    if twice {
      return Refused(Duplicate);
    }
    WriteRules(c, g, all);
    return Granted;
  }

  /** A group's rules are changed and its live instances counted up. */
  method WriteRules(c: Firewalls, g: GroupId, changed: seq<GroupRule>)
    requires c.Valid() && g in c.rules && AllValidated(changed)
    modifies c
    ensures Longer(old(c.history), c.history) && c.trouble == old(c.trouble)
    ensures c.Valid() && FwRely(old(c.Now()), c.Now()) && Appended(old(c.history), c.history, old(c.vms))
    ensures c.Now() == old(c.Now()).(rows := c.rows, rules := old(c.rules)[g := changed])
    ensures CountedUp(old(c.rows), c.rows, g)
  {
    hide FwRely, FwOK, GroupsOK, MembersOK, Bumped, CountedUp, Longer, AllValidated;
    Growing();
    assert FwOK(c.Now());
    SafeGroups(c.Now());
    BumpRely(c.Now(), g, changed);
    var rows, groups := Bumped(c.rows, g), c.rules[g := changed];
    BumpedCounts(c.rows, g);
    RulesChangeKeeps(c.Now(), g, rows, changed);
    c.Commit(c.Now().(rows := rows, rules := groups));
  }

  /** Which groups there are, whose, and who has them stays as it is. */
  lemma RulesChangeKeeps(s: FwState, g: GroupId, rows: map<InstanceId, FwRow>, changed: seq<GroupRule>)
    requires FwOK(s) && g in s.rules && rows == Bumped(s.rows, g)
    ensures var s' := s.(rows := rows, rules := s.rules[g := changed]); GroupsOK(s') && MembersOK(s')
  {
  }

  /** The rules of a list that a request cannot be about stay, in their order. */
  lemma {:induction false} WithoutSplits(a: seq<GroupRule>, b: seq<GroupRule>, id: RuleId)
    ensures Without(a + b, id) == Without(a, id) + Without(b, id)
  {
    if b == [] {
      assert a + b == a;
    } else {
      var n := |b| - 1;
      WithoutSplits(a, b[..n], id);
      assert (a + b)[..|a + b| - 1] == a + b[..n];
    }
  }

  lemma {:induction false} NoneGone(rules: seq<GroupRule>, id: RuleId)
    requires forall k :: 0 <= k < |rules| ==> rules[k].id != id
    ensures Without(rules, id) == rules
  {
    if rules != [] {
      var n := |rules| - 1;
      NoneGone(rules[..n], id);
      assert rules == rules[..n] + [rules[n]];
    }
  }

  lemma OneBetween(a: seq<GroupRule>, r: GroupRule, b: seq<GroupRule>)
    ensures Without(a + [r] + b, r.id) == Without(a, r.id) + Without(b, r.id)
  {
    hide Without;
    WithoutSplits(a + [r], b, r.id);
    WithoutSplits(a, [r], r.id);
    OneGone(r);
  }

  /** If a rule's number is its own, exactly that rule goes. */
  lemma OneRuleGoes(rules: seq<GroupRule>, k: nat)
    requires k < |rules| && forall j :: 0 <= j < |rules| && j != k ==> rules[j].id != rules[k].id
    ensures Without(rules, rules[k].id) == rules[..k] + rules[k + 1..]
  {
    hide Without;
    var a, b, id := rules[..k], rules[k + 1..], rules[k].id;
    NoneGone(a, id) by {
      forall j | 0 <= j < |a| ensures a[j].id != id {
        assert a[j] == rules[j];
      }
    }
    NoneGone(b, id) by {
      forall j | 0 <= j < |b| ensures b[j].id != id {
        assert b[j] == rules[k + 1 + j];
      }
    }
    OneBetween(a, rules[k], b);
    assert rules == a + [rules[k]] + b;
  }

  lemma OneGone(r: GroupRule)
    ensures Without([r], r.id) == []
  {
    assert [r][..0] == [];
  }

  lemma FwRelySelf(s: FwState)
    requires FwOK(s)
    ensures FwRely(s, s)
  {
  }

  function Without(rules: seq<GroupRule>, id: RuleId): seq<GroupRule> {
    if rules == [] then []
    else Without(rules[..|rules| - 1], id) + if rules[|rules| - 1].id == id then [] else [rules[|rules| - 1]]
  }

  lemma {:induction false} WithoutMembers(rules: seq<GroupRule>, id: RuleId)
    ensures forall r :: r in Without(rules, id) <==> r in rules && r.id != id
    ensures AllValidated(rules) ==> AllValidated(Without(rules, id))
  {
    if rules != [] {
      var n := |rules| - 1;
      WithoutMembers(rules[..n], id);
      assert rules == rules[..n] + [rules[n]];
    }
  }

  method RevokeRule(c: Firewalls, g: GroupId, id: RuleId, authorized: bool) returns (reply: Reply)
    requires c.Valid()
    modifies c
    ensures Longer(old(c.history), c.history) && c.trouble == old(c.trouble)
    ensures c.Valid() && FwRely(old(c.Now()), c.Now()) && Appended(old(c.history), c.history, old(c.vms))
    ensures reply.Granted? <==>
              && g in old(c.rules) && authorized
              && exists k :: 0 <= k < |old(c.rules)[g]| && old(c.rules)[g][k].id == id
    ensures reply.Refused? ==> c.Now() == old(c.Now()) && reply.code == NotFound
    ensures reply.Granted? ==>
              && c.Now() == old(c.Now()).(rows := c.rows, rules := old(c.rules)[g := Without(old(c.rules)[g], id)])
              && CountedUp(old(c.rows), c.rows, g)
  {
    hide FwRely, Without, Bumped, CountedUp, Longer;
    Growing();
    FwRelySelf(c.Now());
    if g !in c.rules || !authorized {
      return Refused(NotFound);
    }
    if !exists k :: 0 <= k < |c.rules[g]| && c.rules[g][k].id == id {
      return Refused(NotFound);
    }
    WithoutMembers(c.rules[g], id);
    WriteRules(c, g, Without(c.rules[g], id));
    return Granted;
  }

  // ------------------------------------------------------- groups of an instance

  function Named(asked: seq<GroupId>): set<GroupId> { set g | g in asked }

  function Everywhere(v6: bool): Prefix { Prefix(v6, 0, 0) }

  function AllTraffic(g: GroupId, a: RuleId, b: RuleId, d: Direction): seq<GroupRule> {
    [GroupRule(a, g, d, All, None, None, Everywhere(false)), GroupRule(b, g, d, All, None, None, Everywhere(true))]
  }

  function Opened(g: GroupId, ids: (RuleId, RuleId, RuleId, RuleId)): seq<GroupRule> {
    AllTraffic(g, ids.0, ids.1, Ingress) + AllTraffic(g, ids.2, ids.3, Egress)
  }

  /** The state with one group more. */
  function WithGroup(s: FwState, account: AccountId, g: GroupId, rules: seq<GroupRule>): FwState {
    s.(rules := s.rules[g := rules], owners := s.owners[g := account])
  }

  /** What the account's first use of groups makes of the state: its default group, which
      lets everything through, is there. */
  ghost predicate DefaultThere(s: FwState, s': FwState, account: AccountId) {
    if account in s.defaults then s' == s
    else
      account in s'.defaults && s'.defaults[account] !in s.rules
      && exists ids ::
           s' == WithGroup(s, account, s'.defaults[account], Opened(s'.defaults[account], ids))
                   .(defaults := s.defaults[account := s'.defaults[account]])
  }

  method EnsureDefault(c: Firewalls, account: AccountId) returns (s: FwState)
    requires c.Valid()
    ensures DefaultThere(c.Now(), s, account) && FwOK(s) && FwRely(c.Now(), s)
  {
    hide FwOK, FwRely;
    assert FwOK(c.Now());
    FwRelySelf(c.Now());
    if account in c.defaults {
      return c.Now();
    }
    SomeNatOutside(c.rules.Keys);
    var g :| g !in c.rules.Keys;
    var a := AnyNat();
    var b := AnyNat();
    var d := AnyNat();
    var e := AnyNat();
    s := WithGroup(c.Now(), account, g, Opened(g, (a, b, d, e))).(defaults := c.defaults[account := g]);
    OneGroupMore(c.Now(), s, account, g);
  }

  /** A group more for an account with room for it, its default one if it has none yet. */
  lemma OneGroupMore(s: FwState, s': FwState, account: AccountId, g: GroupId)
    requires FwOK(s) && g !in s.rules && g in s'.rules && AllValidated(s'.rules[g])
    requires account !in s.defaults || |GroupsOf(s.owners, account)| < MAX_GROUPS_PER_ACCOUNT
    requires s' == WithGroup(s, account, g, s'.rules[g])
                     .(defaults := if account in s.defaults then s.defaults else s.defaults[account := g])
    ensures FwOK(s') && FwRely(s, s')
  {
    hide FwOK, GroupsOK, MembersOK, FwRely;
    SafeGroups(s);
    RoomForOne(s, s', account, g);
    GroupsRely(s, s') by { MembersKnown(s, s', g); }
    FwRelyKeeps(s, s');
  }

  lemma RoomForOne(s: FwState, s': FwState, account: AccountId, g: GroupId)
    requires GroupsOK(s) && MembersOK(s) && g !in s.rules
    requires account !in s.defaults || |GroupsOf(s.owners, account)| < MAX_GROUPS_PER_ACCOUNT
    requires s'.rows == s.rows && s'.owners == s.owners[g := account] && s'.rules.Keys == s.rules.Keys + {g}
    requires s'.defaults == if account in s.defaults then s.defaults else s.defaults[account := g]
    ensures GroupsOK(s') && MembersOK(s')
  {
    hide GroupsOf;
    forall a: AccountId ensures |GroupsOf(s'.owners, a)| <= MAX_GROUPS_PER_ACCOUNT {
      OneOwnedMore(s.owners, account, g, a);
      if account !in s.defaults {
        NoneOwned(s, account);
      }
    }
    assert GroupsOK(s') by { hide MembersOK; }
  }

  lemma OneOwnedMore(owners: map<GroupId, AccountId>, account: AccountId, g: GroupId, a: AccountId)
    requires g !in owners
    ensures |GroupsOf(owners[g := account], a)| == |GroupsOf(owners, a)| + if a == account then 1 else 0
  {
    if a == account {
      assert GroupsOf(owners[g := account], a) == GroupsOf(owners, a) + {g};
    } else {
      assert GroupsOf(owners[g := account], a) == GroupsOf(owners, a);
    }
  }

  lemma NoneOwned(s: FwState, account: AccountId)
    requires GroupsOK(s) && account !in s.defaults
    ensures |GroupsOf(s.owners, account)| == 0
  {
    assert GroupsOf(s.owners, account) == {};
  }

  /** An instance's groups are not touched by adding another. */
  lemma MembersKnown(s: FwState, s': FwState, g: GroupId)
    requires FwOK(s) && g !in s.rules && g in s'.rules && s'.rules == s.rules[g := s'.rules[g]]
    ensures forall i, h | i in s.rows && s.rows[i].live ::
              h in s.rows[i].groups ==> h in s'.rules && s'.rules[h] == s.rules[h]
  {
  }

  /** One to five groups of the account, each named once; none named means the default
      one, which is made if need be. */
  method ResolveGroups(c: Firewalls, account: AccountId, asked: seq<GroupId>)
    returns (ids: Option<set<GroupId>>, code: Code, s: FwState)
    requires c.Valid()
    ensures FwOK(s) && FwRely(c.Now(), s)
    ensures asked == [] ==>
              DefaultThere(c.Now(), s, account) && account in s.defaults && ids == Some({s.defaults[account]})
    ensures asked != [] ==> s == c.Now() && (ids.Some? <==> MayHave(c.Now(), account, asked))
    ensures asked != [] && ids.Some? ==> ids.value == Named(asked)
    ensures ids.None? ==> code == if |Named(asked)| > 5 then LimitExceeded else NotFound
    ensures ids.Some? ==> 1 <= |ids.value| <= 5
    ensures ids.Some? ==> forall g :: g in ids.value ==> g in s.owners && s.owners[g] == account
  {
    hide FwRely;
    s, code := c.Now(), NotFound;
    FwRelySelf(s);
    if asked == [] {
      s := EnsureDefault(c, account);
      return Some({s.defaults[account]}), code, s;
    }
    var found: set<GroupId> := {};
    for k := 0 to |asked|
      invariant found == Named(asked[..k])
    {
      assert asked[..k + 1] == asked[..k] + [asked[k]];
      found := found + {asked[k]};
    }
    assert asked[..|asked|] == asked;
    if |found| > MAX_GROUPS_PER_INSTANCE {
      return None, LimitExceeded, s;
    }
    if exists g :: g in found && (g !in c.owners || c.owners[g] != account) {
      return None, NotFound, s;
    }
    assert asked[0] in found;
    return Some(found), code, s;
  }

  /** At most five groups are named, all of the account. */
  predicate MayHave(s: FwState, account: AccountId, asked: seq<GroupId>) {
    && |Named(asked)| <= 5
    && forall g :: g in asked ==> g in s.owners && s.owners[g] == account
  }

  method SetInstanceGroups(c: Firewalls, i: InstanceId, asked: seq<GroupId>, authorized: bool) returns (reply: Reply)
    requires c.Valid()
    modifies c
    ensures Longer(old(c.history), c.history) && c.trouble == old(c.trouble)
    ensures c.Valid() && FwRely(old(c.Now()), c.Now()) && Appended(old(c.history), c.history, old(c.vms))
    ensures reply.Granted? <==>
              && asked != [] && i in old(c.rows) && authorized && old(c.rows)[i].live && !old(c.rows)[i].ending
              && MayHave(old(c.Now()), old(c.rows)[i].account, asked)
    ensures reply.Refused? ==>
              reply.code == if asked == [] then InvalidParameter
                            else if i !in old(c.rows) || !authorized then NotFound
                            else if !old(c.rows)[i].live || old(c.rows)[i].ending then IncorrectInstanceState
                            else if |Named(asked)| > 5 then LimitExceeded else NotFound
    ensures c.Now() == if reply.Refused? then old(c.Now()) else
                       var row := old(c.rows)[i].(groups := Named(asked), generation := old(c.rows)[i].generation + 1);
                       old(c.Now()).(rows := old(c.rows)[i := row])
  {
    hide FwRely;
    FwRelySelf(c.Now());
    if asked == [] {
      return Refused(InvalidParameter);
    }
    if i !in c.rows || !authorized {
      return Refused(NotFound);
    }
    if !c.rows[i].live || c.rows[i].ending {
      return Refused(IncorrectInstanceState);
    }
    var ids, code, s := ResolveGroups(c, c.rows[i].account, asked);
    if ids.None? {
      return Refused(code);
    }
    var row := s.rows[i].(groups := ids.value, generation := s.rows[i].generation + 1);
    OneRowRely(s, i, row);
    c.Commit(s.(rows := s.rows[i := row]));
    return Granted;
  }

  /** Changing one row and counting it up, or ending it. */
  lemma OneRowRely(s: FwState, i: InstanceId, row: FwRow)
    requires FwOK(s) && i in s.rows && row.applied == s.rows[i].applied && row.account == s.rows[i].account
    requires (row.live ==> s.rows[i].live) && (s.rows[i].ending ==> row.ending)
    requires row.generation > s.rows[i].generation
             || (row.generation == s.rows[i].generation && row.groups == s.rows[i].groups)
    requires row.live ==> forall g :: g in row.groups ==> g in s.owners && s.owners[g] == row.account
    ensures FwRely(s, s.(rows := s.rows[i := row]))
    ensures GroupsOK(s.(rows := s.rows[i := row])) && MembersOK(s.(rows := s.rows[i := row]))
  {
    var s' := s.(rows := s.rows[i := row]);
    forall j | j in s.rows ensures j in s'.rows && RowRely(s, s', j) {
    }
  }

  /** A terminate requested, and later finished. */
  method EndInstance(c: Firewalls, i: InstanceId, finished: bool)
    requires c.Valid()
    modifies c
    ensures Longer(old(c.history), c.history) && c.trouble == old(c.trouble)
    ensures c.Valid() && FwRely(old(c.Now()), c.Now()) && Appended(old(c.history), c.history, old(c.vms))
    ensures c.Now() == if i !in old(c.rows) then old(c.Now()) else
                       var row := old(c.rows)[i].(ending := true, live := old(c.rows)[i].live && !finished);
                       old(c.Now()).(rows := old(c.rows)[i := row])
  {
    hide FwRely;
    FwRelySelf(c.Now());
    if i in c.rows {
      var row := c.rows[i].(ending := true, live := c.rows[i].live && !finished);
      OneRowRely(c.Now(), i, row);
      c.Commit(c.Now().(rows := c.rows[i := row]));
    }
  }

  /** A launch or an adoption: the row starts one generation ahead of its VM, whose
      firewall may be anything, and has one to five groups of the account. */
  method AddInstance(c: Firewalls, i: InstanceId, account: AccountId, asked: seq<GroupId>, fw: VmFirewall)
    returns (reply: Reply)
    requires c.Valid()
    modifies c
    ensures Longer(old(c.history), c.history) && c.trouble == old(c.trouble)
    ensures c.Valid() && FwRely(old(c.Now()), c.Now()) && Appended(old(c.history), c.history, old(c.vms))
    ensures reply.Refused? ==>
              && c.Now() == old(c.Now())
              && reply.code == if i in old(c.rows) || i in old(c.vms) then IncorrectInstanceState
                               else if |Named(asked)| > 5 then LimitExceeded else NotFound
    ensures reply.Granted? <==>
              && i !in old(c.rows) && i !in old(c.vms) && (asked == [] || MayHave(old(c.Now()), account, asked))
    ensures reply.Granted? ==> i in c.rows && c.vms == old(c.vms)[i := fw]
    ensures reply.Granted? ==> 1 <= |c.rows[i].groups| <= 5
    ensures reply.Granted? && asked != [] ==>
              c.rows == old(c.rows)[i := FwRow(account, Named(asked), 1, 0, false, true)]
    ensures reply.Granted? && asked == [] ==>
              && account in c.defaults
              && c.rows == old(c.rows)[i := FwRow(account, {c.defaults[account]}, 1, 0, false, true)]
  {
    hide FwRely, FwOK;
    assert FwOK(c.Now());
    FwRelySelf(c.Now());
    if i in c.rows || i in c.vms {
      return Refused(IncorrectInstanceState);
    }
    var ids, code, s := ResolveGroups(c, account, asked);
    if ids.None? {
      return Refused(code);
    }
    var row := FwRow(account, ids.value, 1, 0, false, true);
    NewRowRely(s, i, row, fw);
    var s' := s.(rows := s.rows[i := row], vms := s.vms[i := fw]);
    FwRelyTrans(c.Now(), s, s');
    c.Commit(s');
    return Granted;
  }

  lemma NewRowRely(s: FwState, i: InstanceId, row: FwRow, fw: VmFirewall)
    requires FwOK(s) && i !in s.rows && i !in s.vms && row.applied == 0
    requires forall g :: g in row.groups ==> g in s.owners && s.owners[g] == row.account
    ensures var s' := s.(rows := s.rows[i := row], vms := s.vms[i := fw]);
            FwRely(s, s') && GroupsOK(s') && MembersOK(s') && RulesValid(s'.rules)
  {
    var s' := s.(rows := s.rows[i := row], vms := s.vms[i := fw]);
    forall j | j in s.rows ensures j in s'.rows && RowRely(s, s', j) {
    }
  }

  // ------------------------------------------------------------------- groups

  /** A new group lets everything out and nothing in; an account has at most twenty. */
  method CreateSecurityGroup(c: Firewalls, account: AccountId, a: RuleId, b: RuleId) returns (made: Option<GroupId>)
    requires c.Valid()
    modifies c
    ensures Longer(old(c.history), c.history) && c.trouble == old(c.trouble)
    ensures c.Valid() && FwRely(old(c.Now()), c.Now()) && Appended(old(c.history), c.history, old(c.vms))
    ensures made.None? <==> |GroupsOf(old(c.owners), account)| >= 20
    ensures made.None? ==> c.Now() == old(c.Now())
    ensures made.Some? ==>
              exists s :: DefaultThere(old(c.Now()), s, account) && made.value !in s.rules
                && c.Now() == WithGroup(s, account, made.value, AllTraffic(made.value, a, b, Egress))
  {
    hide FwRely, FwOK, DefaultThere;
    FwRelySelf(c.Now());
    var s := EnsureDefault(c, account);
    DefaultCounts(c.Now(), s, account);
    if |GroupsOf(s.owners, account)| >= MAX_GROUPS_PER_ACCOUNT {
      return None;
    }
    SomeNatOutside(s.rules.Keys);
    var g :| g !in s.rules.Keys;
    var s' := WithGroup(s, account, g, AllTraffic(g, a, b, Egress));
    OneGroupMore(s, s', account, g);
    FwRelyTrans(c.Now(), s, s');
    SafeGroups(s');
    c.Commit(s');
    return Some(g);
  }

  lemma SafeGroups(s: FwState)
    requires FwOK(s)
    ensures RulesValid(s.rules) && GroupsOK(s) && MembersOK(s)
  {
  }

  /** Whoever has no default group has no group, so making it is never what fills the account. */
  lemma DefaultCounts(s: FwState, s': FwState, account: AccountId)
    requires FwOK(s) && DefaultThere(s, s', account)
    ensures account in s'.defaults
    ensures |GroupsOf(s'.owners, account)| >= MAX_GROUPS_PER_ACCOUNT
       <==> |GroupsOf(s.owners, account)| >= MAX_GROUPS_PER_ACCOUNT
    ensures |GroupsOf(s'.owners, account)| >= MAX_GROUPS_PER_ACCOUNT ==> s' == s
  {
    if account !in s.defaults {
      assert GroupsOf(s.owners, account) == {};
      assert GroupsOf(s'.owners, account) == {s'.defaults[account]};
    }
  }

  /** Every address there is, of either family. */
  lemma EverywhereContains(v6: bool, address: nat)
    requires address < Power(Width(v6))
    ensures Contains(Everywhere(v6), v6, address)
  {
    hide Power;
    assert Span(Everywhere(v6)) == Power(Width(v6));
    BelowDivisor(address, Power(Width(v6)));
  }

  lemma BelowDivisor(n: nat, d: nat)
    requires n < d
    ensures n / d == 0 / d
  {
  }

  lemma NewGroupAllowsOut(g: GroupId, a: RuleId, b: RuleId, p: Packet)
    requires p.remote < Power(Width(p.v6))
    ensures SomeRuleAllows(AllTraffic(g, a, b, Egress), p) <==> p.way.Out?
  {
    EverywhereContains(p.v6, p.remote);
    var rules := AllTraffic(g, a, b, Egress);
    if p.way.Out? {
      var k := if p.v6 then 1 else 0;
      assert GroupAllows(rules[k], p);
    }
  }

  lemma DefaultGroupAllowsAll(g: GroupId, ids: (RuleId, RuleId, RuleId, RuleId), p: Packet)
    requires p.remote < Power(Width(p.v6))
    ensures SomeRuleAllows(Opened(g, ids), p)
  {
    EverywhereContains(p.v6, p.remote);
    var k := (if p.way.In? then 0 else 2) + (if p.v6 then 1 else 0);
    assert GroupAllows(Opened(g, ids)[k], p);
  }

  /** Groups no live instance has may come and go. */
  lemma GroupsRely(s: FwState, s': FwState)
    requires FwOK(s) && s'.rows == s.rows && s'.vms == s.vms
    requires forall i, g | i in s.rows && s.rows[i].live ::
               g in s.rows[i].groups ==> g in s'.rules && s'.rules[g] == s.rules[g]
    ensures FwRely(s, s')
  {
    forall j | j in s.rows ensures j in s'.rows && RowRely(s, s', j) {
    }
  }

  /** A group is deleted only if no live instance has it. */
  method DeleteSecurityGroup(c: Firewalls, g: GroupId, authorized: bool) returns (reply: Reply)
    requires c.Valid()
    modifies c
    ensures Longer(old(c.history), c.history) && c.trouble == old(c.trouble)
    ensures c.Valid() && FwRely(old(c.Now()), c.Now()) && Appended(old(c.history), c.history, old(c.vms))
    ensures reply.Granted? <==>
              && g in old(c.rules) && authorized && !IsDefault(old(c.Now()), g)
              && forall i :: i in old(c.rows) && old(c.rows)[i].live ==> g !in old(c.rows)[i].groups
    ensures reply.Refused? ==>
              reply.code == if g !in old(c.rules) || !authorized then NotFound
                            else if IsDefault(old(c.Now()), g) then CannotDelete else DependencyViolation
    ensures c.Now() == if reply.Granted?
                       then old(c.Now()).(rules := old(c.rules) - {g}, owners := old(c.owners) - {g})
                       else old(c.Now())
  {
    hide FwRely;
    FwRelySelf(c.Now());
    if g !in c.rules || !authorized {
      return Refused(NotFound);
    }
    if exists a :: a in c.defaults && c.defaults[a] == g {
      return Refused(CannotDelete);
    }
    if exists i :: i in c.rows && c.rows[i].live && g in c.rows[i].groups {
      return Refused(DependencyViolation);
    }
    var s := c.Now().(rules := c.rules - {g}, owners := c.owners - {g});
    GroupsRely(c.Now(), s);
    FewerGroups(c.Now(), s, g);
    c.Commit(s);
    return Granted;
  }

  predicate IsDefault(s: FwState, g: GroupId) { exists a :: a in s.defaults && s.defaults[a] == g }

  lemma FewerGroups(s: FwState, s': FwState, g: GroupId)
    requires FwOK(s) && !IsDefault(s, g) && s' == s.(rules := s.rules - {g}, owners := s.owners - {g})
    requires forall i :: i in s.rows && s.rows[i].live ==> g !in s.rows[i].groups
    ensures GroupsOK(s') && MembersOK(s')
  {
    forall a: AccountId ensures |GroupsOf(s'.owners, a)| <= MAX_GROUPS_PER_ACCOUNT {
      assert GroupsOf(s.owners, a) == GroupsOf(s'.owners, a) + (GroupsOf(s.owners, a) * {g});
    }
  }

  /** At start every grouped instance is written again. */
  method BumpAllGrouped(c: Firewalls)
    requires c.Valid()
    modifies c
    ensures Longer(old(c.history), c.history) && c.trouble == old(c.trouble)
    ensures c.Valid() && FwRely(old(c.Now()), c.Now()) && Appended(old(c.history), c.history, old(c.vms))
    ensures c.Now() == old(c.Now()).(rows := c.rows) && c.rows.Keys == old(c.rows).Keys
    ensures forall i | i in c.rows ::
              var row := old(c.rows)[i];
              c.rows[i] == row.(generation := row.generation + if row.live && row.groups != {} then 1 else 0)
    ensures forall i :: i in c.rows && c.rows[i].live && c.rows[i].groups != {} ==> !Clean(c.Now(), i)
  {
    hide FwRely;
    var rows' := map i | i in c.rows ::
      if c.rows[i].live && c.rows[i].groups != {}
      then c.rows[i].(generation := c.rows[i].generation + 1)
      else c.rows[i];
    BumpAllRely(c.Now(), rows');
    c.Commit(c.Now().(rows := rows'));
  }

  lemma BumpAllRely(s: FwState, rows': map<InstanceId, FwRow>)
    requires FwOK(s) && rows'.Keys == s.rows.Keys
    requires forall i :: i in rows' ==>
               rows'[i] == s.rows[i] || rows'[i] == s.rows[i].(generation := s.rows[i].generation + 1)
    ensures var s' := s.(rows := rows'); FwRely(s, s') && GroupsOK(s') && MembersOK(s')
  {
    var s' := s.(rows := rows');
    forall j | j in s.rows ensures j in s'.rows && RowRely(s, s', j) {
    }
  }
}
