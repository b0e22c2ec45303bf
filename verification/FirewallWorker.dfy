/** The firewall worker: it reads the generation first and everything else after
    it, so whatever changes meanwhile leaves the two apart and is written next. */
module FirewallWorker {
  import opened Types
  import opened FirewallRules
  import opened FirewallState
  import opened FirewallSync
  import opened FirewallRequests
  import opened AddressPin
  import opened Backends

  datatype FwRequest =
    | Authorizing(group: GroupId, direction: Direction, requests: seq<RuleRequest>, ids: seq<RuleId>, authorized: bool)
    | Revoking(group: GroupId, rule: RuleId, authorized: bool)
    | Regrouping(instance: InstanceId, asked: seq<GroupId>, authorized: bool)
    | Adding(instance: InstanceId, account: AccountId, asked: seq<GroupId>, fw: VmFirewall)
    | Ending(instance: InstanceId, finished: bool)
    | Creating(account: AccountId, a: RuleId, b: RuleId)
    | Deleting(group: GroupId, authorized: bool)
    | Restarting

  /** Anything any number of users do between two calls of the worker. */
  method Users(c: Firewalls)
    requires c.Valid()
    modifies c
    ensures Longer(old(c.history), c.history) && c.trouble == old(c.trouble)
    ensures c.Valid() && FwRely(old(c.Now()), c.Now()) && Appended(old(c.history), c.history, old(c.vms))
  {
    hide Longer, FwRely, Appended;
    Growing();
    FwRelySelf(c.Now());
    AppendedSelf(c.history, c.vms);
    var more := AnyNat();
    while more > 0
      invariant Longer(old(c.history), c.history) && c.trouble == old(c.trouble)
      invariant c.Valid() && FwRely(old(c.Now()), c.Now()) && Appended(old(c.history), c.history, old(c.vms))
    {
      ghost var s, h := c.Now(), c.history;
      var request: FwRequest := *;
      ServeFirewall(c, request);
      FwRelyTrans(old(c.Now()), s, c.Now());
      AppendedOn(old(c.history), h, c.history, old(c.Now()), s);
      more := more - 1;
    }
  }

  lemma AppendedSelf(h: seq<FwState>, vms: map<InstanceId, VmFirewall>)
    ensures Appended(h, h, vms)
  {
  }

  lemma AppendedOn(a: seq<FwState>, b: seq<FwState>, c: seq<FwState>, s: FwState, s': FwState)
    requires Appended(a, b, s.vms) && Appended(b, c, s'.vms) && FwRely(s, s')
    ensures Appended(a, c, s.vms)
  {
    forall k | |a| <= k < |c| ensures KeepsVms(s.vms, c[k]) {
      if k < |b| {
        assert c[k] == c[..|b|][k];
      } else {
        assert KeepsVms(s'.vms, c[k]);
      }
    }
    assert c[..|a|] == c[..|b|][..|a|];
  }

  method ServeFirewall(c: Firewalls, request: FwRequest)
    requires c.Valid()
    modifies c
    ensures Longer(old(c.history), c.history) && c.trouble == old(c.trouble)
    ensures c.Valid() && FwRely(old(c.Now()), c.Now()) && Appended(old(c.history), c.history, old(c.vms))
  {
    hide Longer, FwRely, Appended;
    Growing();
    match request {
      case Authorizing(g, d, requests, ids, authorized) =>
        if |ids| == |requests| {
          var _ := AuthorizeRules(c, g, d, requests, ids, authorized);
        } else {
          FwRelySelf(c.Now());
          AppendedSelf(c.history, c.vms);
        }
      case Revoking(g, id, authorized) =>
        var _ := RevokeRule(c, g, id, authorized);
      case Regrouping(i, asked, authorized) =>
        var _ := SetInstanceGroups(c, i, asked, authorized);
      case Adding(i, account, asked, fw) =>
        var _ := AddInstance(c, i, account, asked, fw);
      case Ending(i, finished) => EndInstance(c, i, finished);
      case Creating(account, a, b) =>
        var _ := CreateSecurityGroup(c, account, a, b);
      case Deleting(g, authorized) =>
        var _ := DeleteSecurityGroup(c, g, authorized);
      case Restarting => BumpAllGrouped(c);
    }
  }

  // ------------------------------------------------------- what the worker knows

  /** What the worker read is what the instance should have, unless its generation
      has moved on; and if the VM was up to date, it already is as wanted. */
  ghost predicate UpTo(s: FwState, i: InstanceId, g: nat, ids: set<GroupId>, want: seq<VmRule>) {
    && FwOK(s) && i in s.rows && i in s.vms && s.rows[i].applied <= g <= s.rows[i].generation
    && (s.rows[i].generation == g && s.rows[i].live ==> s.rows[i].groups == ids && Wanted(s.rules, ids) == want)
  }

  /** The generation and groups read so far are the current ones, unless it has moved on. */
  ghost predicate Read(s: FwState, i: InstanceId, g: nat, ids: set<GroupId>) {
    && FwOK(s) && i in s.rows && i in s.vms && s.rows[i].applied <= g <= s.rows[i].generation
    && (s.rows[i].generation == g && s.rows[i].live ==> s.rows[i].groups == ids)
  }

  lemma UpToKeeps(s: FwState, s': FwState, i: InstanceId, g: nat, ids: set<GroupId>, want: seq<VmRule>)
    requires UpTo(s, i, g, ids, want) && FwOK(s') && FwRely(s, s')
    ensures UpTo(s', i, g, ids, want) && s'.vms[i] == s.vms[i] && (Clean(s', i) ==> Clean(s, i))
  {
    assert RowRely(s, s', i);
    if s'.rows[i].generation == g && s'.rows[i].live {
      SameWishSameList(s, s', i);
    }
  }

  lemma ReadKeeps(s: FwState, s': FwState, i: InstanceId, g: nat, ids: set<GroupId>)
    requires Read(s, i, g, ids) && FwOK(s') && FwRely(s, s')
    ensures Read(s', i, g, ids) && s'.vms[i] == s.vms[i]
  {
    assert RowRely(s, s', i);
  }

  lemma CleanIsWanted(s: FwState, i: InstanceId, g: nat, ids: set<GroupId>, want: seq<VmRule>)
    requires UpTo(s, i, g, ids, want) && Clean(s, i)
    ensures AsWanted(s.vms[i], ids, want) && s.rows[i].groups == ids && Wanted(s.rules, s.rows[i].groups) == want
  {
  }

  /** Users act; the worker's knowledge stays. */
  method LetUsers(c: Firewalls, i: InstanceId, ghost g: nat, ghost ids: set<GroupId>, ghost want: seq<VmRule>)
    requires c.Valid() && UpTo(c.Now(), i, g, ids, want)
    modifies c
    ensures Longer(old(c.history), c.history) && c.trouble == old(c.trouble)
    ensures c.Valid() && UpTo(c.Now(), i, g, ids, want) && i in old(c.vms) && i in c.vms && c.vms[i] == old(c.vms)[i]
    ensures Clean(c.Now(), i) ==> Clean(old(c.Now()), i)
    ensures Appended(old(c.history), c.history, old(c.vms))
  {
    hide Longer, FwRely, FwOK, Appended;
    Growing();
    ghost var s := c.Now();
    Users(c);
    assert FwOK(c.Now()) by { ValidNow(c); }
    UpToKeeps(s, c.Now(), i, g, ids, want);
  }

  lemma ValidNow(c: Firewalls)
    requires c.Valid()
    ensures FwOK(c.Now())
  {
  }

  // ------------------------------------------------------------ replacing rules

  method SameRules(current: seq<VmRule>, desired: seq<VmRule>) returns (same: bool)
    ensures same <==> current == desired
  {
    if |current| != |desired| {
      return false;
    }
    for k := 0 to |desired|
      invariant current[..k] == desired[..k]
    {
      if current[k] != desired[k] {
        return false;
      }
    }
    assert current[..|desired|] == current && desired[..|desired|] == desired;
    return true;
  }

  /** Since `since`, the VM's firewall has only been one of those on the way from `from`
      to what has been read since: no groups, or the rules that the groups had in some state. */
  ghost predicate OnTheWay(
    h: seq<FwState>, since: nat, i: InstanceId, from: VmFirewall, ids: set<GroupId>, want: seq<VmRule>)
  {
    && (forall k :: since <= k < |h| ==> i in h[k].vms && Midway(h[k].vms[i], from, ids, want))
    && AcceptOnly(want)
    && (ids == {} || exists k :: 0 <= k < |h| && since <= k + 1 && WishAt(h[k], ids, want))
  }

  ghost predicate WishAt(s: FwState, ids: set<GroupId>, want: seq<VmRule>) {
    RulesValid(s.rules) && Wanted(s.rules, ids) == want
  }

  lemma StillOnTheWay(
    before: seq<FwState>, after: seq<FwState>, vms: map<InstanceId, VmFirewall>, since: nat,
    i: InstanceId, from: VmFirewall, ids: set<GroupId>, want: seq<VmRule>)
    requires Appended(before, after, vms) && i in vms && Midway(vms[i], from, ids, want)
    requires OnTheWay(before, since, i, from, ids, want)
    ensures OnTheWay(after, since, i, from, ids, want)
  {
    hide Midway, AcceptOnly, WishAt;
    forall k | since <= k < |after| ensures i in after[k].vms && Midway(after[k].vms[i], from, ids, want) {
      if k < |before| {
        assert after[k] == after[..|before|][k];
      } else {
        assert KeepsVms(vms, after[k]);
      }
    }
    if ids != {} {
      var k :| 0 <= k < |before| && since <= k + 1 && WishAt(before[k], ids, want);
      assert after[k] == after[..|before|][k];
    }
  }

  lemma OneStateMore(
    h: seq<FwState>, s: FwState, since: nat, i: InstanceId, from: VmFirewall, ids: set<GroupId>, want: seq<VmRule>)
    requires OnTheWay(h, since, i, from, ids, want) && i in s.vms && Midway(s.vms[i], from, ids, want)
    ensures OnTheWay(h + [s], since, i, from, ids, want)
  {
    hide Midway, AcceptOnly, WishAt;
    if ids != {} {
      var k :| 0 <= k < |h| && since <= k + 1 && WishAt(h[k], ids, want);
      assert (h + [s])[k] == h[k];
    }
  }

  /** Nobody has touched the VM yet. */
  lemma NothingDoneYet(
    before: seq<FwState>, after: seq<FwState>, vms: map<InstanceId, VmFirewall>,
    i: InstanceId, ids: set<GroupId>, want: seq<VmRule>)
    requires Appended(before, after, vms) && i in vms && AcceptOnly(want) && |after| > 0
    requires ids == {} || WishAt(after[|after| - 1], ids, want)
    ensures OnTheWay(after, |before|, i, vms[i], ids, want)
  {
    hide AcceptOnly, WishAt;
    forall k | |before| <= k < |after| ensures i in after[k].vms && Midway(after[k].vms[i], vms[i], ids, want) {
      assert KeepsVms(vms, after[k]);
    }
  }

  /** One change of the VM's firewall, after whatever users do meanwhile. */
  method EditOnTheWay(
    c: Firewalls, i: InstanceId, fw: VmFirewall, g: nat, ids: set<GroupId>, ghost want: seq<VmRule>,
    ghost from: VmFirewall, ghost since: nat)
    returns (r: Outcome)
    requires c.Valid() && UpTo(c.Now(), i, g, ids, want) && OnTheWay(c.history, since, i, from, ids, want)
    requires Midway(c.vms[i], from, ids, want) && Midway(fw, from, ids, want)
    requires Clean(c.Now(), i) ==> fw == c.vms[i] || AsWanted(fw, ids, want)
    modifies c
    ensures Longer(old(c.history), c.history)
    ensures c.Valid() && UpTo(c.Now(), i, g, ids, want) && OnTheWay(c.history, since, i, from, ids, want)
    ensures c.vms[i] == fw || (!r.Ok? && c.vms[i] == old(c.vms)[i])
    ensures Clean(c.Now(), i) ==> Clean(old(c.Now()), i)
    ensures c.Fared(old(c.trouble), r)
  {
    hide Longer, Midway, FwOK, AsWanted, Wanted, OnTheWay, Appended;
    Growing();
    ghost var h := c.history;
    LetUsers(c, i, g, ids, want);
    StillOnTheWay(h, c.history, old(c.vms), since, i, from, ids, want);
    if Clean(c.Now(), i) {
      CleanIsWanted(c.Now(), i, g, ids, want);
    }
    h := c.history;
    r := c.Edit(i, fw);
    OneStateMore(h, c.Now(), since, i, from, ids, want);
    assert FwOK(c.Now()) by { ValidNow(c); }
  }

  /** Making the VM's rules exactly `want`: a rule goes in at the top, so the new
      ones are put in last to first, and then the old ones below them are taken out. */
  method ReplaceRules(
    c: Firewalls, i: InstanceId, current: seq<VmRule>, want: seq<VmRule>, g: nat, ids: set<GroupId>,
    ghost from: VmFirewall, ghost since: nat)
    returns (r: Outcome)
    requires c.Valid() && UpTo(c.Now(), i, g, ids, want) && OnTheWay(c.history, since, i, from, ids, want)
    requires c.vms[i].list == current == from.list && SwitchedAs(c.vms[i], from, ids)
    modifies c
    ensures Longer(old(c.history), c.history)
    ensures c.Valid() && UpTo(c.Now(), i, g, ids, want) && OnTheWay(c.history, since, i, from, ids, want)
    ensures r.Ok? ==> c.vms[i] == old(c.vms)[i].(list := want)
    ensures c.Fared(old(c.trouble), r)
  {
    hide Longer, FwOK, OnTheWay, Between;
    Growing();
    var same := SameRules(current, want);
    if same {
      return Ok;
    }
    if Clean(c.Now(), i) {
      CleanIsWanted(c.Now(), i, g, ids, want);
    }
    r := InsertAll(c, i, current, want, g, ids, from, since);
    if !r.Ok? {
      return r;
    }
    r := TakeOutOld(c, i, current, want, g, ids, from, since);
  }

  method InsertAll(
    c: Firewalls, i: InstanceId, current: seq<VmRule>, want: seq<VmRule>, g: nat, ids: set<GroupId>,
    ghost from: VmFirewall, ghost since: nat)
    returns (r: Outcome)
    requires c.Valid() && UpTo(c.Now(), i, g, ids, want) && OnTheWay(c.history, since, i, from, ids, want)
    requires !Clean(c.Now(), i) && c.vms[i].list == current == from.list && SwitchedAs(c.vms[i], from, ids)
    modifies c
    ensures Longer(old(c.history), c.history)
    ensures c.Valid() && UpTo(c.Now(), i, g, ids, want) && OnTheWay(c.history, since, i, from, ids, want)
    ensures !Clean(c.Now(), i)
    ensures r.Ok? ==> c.vms[i] == old(c.vms)[i].(list := want + current)
    ensures c.Fared(old(c.trouble), r)
  {
    hide Longer, FwOK, OnTheWay, Between, Clean, Inserted;
    Growing();
    ghost var fw := c.vms[i];
    InsertedEnds(current, want);
    var k := |want|;
    r := Ok;
    while k > 0
      invariant Longer(old(c.history), c.history) && c.trouble == old(c.trouble)
      invariant 0 <= k <= |want| && c.Valid() && !Clean(c.Now(), i)
      invariant UpTo(c.Now(), i, g, ids, want) && OnTheWay(c.history, since, i, from, ids, want)
      invariant i in c.vms && c.vms[i] == fw.(list := Inserted(current, want, k))
    {
      k := k - 1;
      Inserting(current, want, k);
      r := EditOnTheWay(c, i, c.vms[i].(list := [want[k]] + c.vms[i].list), g, ids, want, from, since);
      if !r.Ok? {
        return r;
      }
    }
    r := Ok;
  }

  method TakeOutOld(
    c: Firewalls, i: InstanceId, current: seq<VmRule>, want: seq<VmRule>, g: nat, ids: set<GroupId>,
    ghost from: VmFirewall, ghost since: nat)
    returns (r: Outcome)
    requires c.Valid() && UpTo(c.Now(), i, g, ids, want) && OnTheWay(c.history, since, i, from, ids, want)
    requires !Clean(c.Now(), i) && current == from.list && SwitchedAs(c.vms[i], from, ids)
    requires c.vms[i].list == want + current
    modifies c
    ensures Longer(old(c.history), c.history)
    ensures c.Valid() && UpTo(c.Now(), i, g, ids, want) && OnTheWay(c.history, since, i, from, ids, want)
    ensures r.Ok? ==> c.vms[i] == old(c.vms)[i].(list := want)
    ensures c.Fared(old(c.trouble), r)
  {
    hide Longer, FwOK, OnTheWay, Between, Clean;
    Growing();
    ghost var fw := c.vms[i];
    assert want + current == want + current[..|current|];
    var n := |current|;
    while n > 0
      invariant Longer(old(c.history), c.history) && c.trouble == old(c.trouble)
      invariant 0 <= n <= |current| && c.Valid() && !Clean(c.Now(), i)
      invariant UpTo(c.Now(), i, g, ids, want) && OnTheWay(c.history, since, i, from, ids, want)
      invariant c.vms[i] == fw.(list := want + current[..n])
    {
      n := n - 1;
      TakingOut(current, want, n);
      var pos := |want| + n;
      var list := c.vms[i].list;
      r := EditOnTheWay(c, i, c.vms[i].(list := list[..pos] + list[pos + 1..]), g, ids, want, from, since);
      if !r.Ok? {
        return r;
      }
    }
    assert want + current[..0] == want;
    return Ok;
  }

  /** The list once the rules from `k` on are in. */
  function Inserted(current: seq<VmRule>, desired: seq<VmRule>, k: nat): seq<VmRule>
    requires k <= |desired|
  {
    desired[k..] + current
  }

  lemma InsertedEnds(current: seq<VmRule>, desired: seq<VmRule>)
    ensures Inserted(current, desired, |desired|) == current && Inserted(current, desired, 0) == desired + current
  {
    assert desired[0..] == desired;
  }

  lemma Inserting(current: seq<VmRule>, desired: seq<VmRule>, k: nat)
    requires k < |desired|
    ensures [desired[k]] + Inserted(current, desired, k + 1) == Inserted(current, desired, k)
    ensures Between(Inserted(current, desired, k), current, desired)
    ensures Between(Inserted(current, desired, k + 1), current, desired)
  {
    assert [desired[k]] + desired[k + 1..] == desired[k..];
  }

  lemma TakingOut(current: seq<VmRule>, desired: seq<VmRule>, n: nat)
    requires n < |current|
    ensures var list, pos := desired + current[..n + 1], |desired| + n;
            list[..pos] + list[pos + 1..] == desired + current[..n]
    ensures Between(desired + current[..n], current, desired) && Between(desired + current[..n + 1], current, desired)
  {
  }

  // ---------------------------------------------------------------- one writing

  /** The rules of the groups, in the order the database gives them. */
  method RulesOfGroups(c: Firewalls, ids: set<GroupId>) returns (all: seq<GroupRule>)
    ensures all == RulesOf(c.rules, ids)
  {
    all := [];
    var n := 0;
    while exists g :: g in ids && g >= n
      invariant n <= BoundOf(ids) && all == RulesBelow(c.rules, ids, n)
      decreases BoundOf(ids) - n
    {
      if n in ids && n in c.rules {
        all := all + (Select(c.rules[n], Ingress) + Select(c.rules[n], Egress));
      }
      n := n + 1;
    }
    NoneAbove(c.rules, ids, n, BoundOf(ids));
  }

  lemma {:induction false} NoneAbove(rules: map<GroupId, seq<GroupRule>>, ids: set<GroupId>, n: nat, m: nat)
    requires n <= m && forall g :: g in ids ==> g < n
    ensures RulesBelow(rules, ids, m) == RulesBelow(rules, ids, n)
    decreases m
  {
    if n < m {
      NoneAbove(rules, ids, n, m - 1);
    }
  }

  lemma NothingWanted(rules: map<GroupId, seq<GroupRule>>)
    requires RulesValid(rules)
    ensures Wanted(rules, {}) == []
  {
    var none: set<GroupId> := {};
    assert BoundOf(none) == 0;
    assert RulesOf(rules, none) == [];
  }

  /** What has been read of the row so far. */
  ghost predicate Claimed(s: FwState, i: InstanceId, g: nat) {
    FwOK(s) && i in s.rows && i in s.vms && s.rows[i].applied <= g <= s.rows[i].generation
  }

  lemma ClaimedKeeps(s: FwState, s': FwState, i: InstanceId, g: nat)
    requires Claimed(s, i, g) && FwOK(s') && FwRely(s, s')
    ensures Claimed(s', i, g) && s'.vms[i] == s.vms[i]
  {
    assert RowRely(s, s', i);
  }

  /** An instance without groups: filtering off first, then its rules taken out. */
  method Unfilter(c: Firewalls, i: InstanceId, current: seq<VmRule>, g: nat, ghost since: nat) returns (r: Outcome)
    requires c.Valid() && Read(c.Now(), i, g, {}) && c.vms[i].list == current
    requires OnTheWay(c.history, since, i, c.vms[i], {}, [])
    modifies c
    ensures Longer(old(c.history), c.history)
    ensures c.Valid() && UpTo(c.Now(), i, g, {}, [])
    ensures OnTheWay(c.history, since, i, old(c.vms)[i], {}, [])
    ensures r.Ok? ==> AsWanted(c.vms[i], {}, [])
    ensures r.Ok? ==> c.vms[i].card == old(c.vms)[i].card
    ensures c.Fared(old(c.trouble), r)
  {
    hide Longer, FwOK, Wanted, OnTheWay;
    Growing();
    ghost var from := c.vms[i];
    assert RulesValid(c.rules) by { ValidRules(c.Now()); }
    NothingWanted(c.rules);
    OldIsBetween(current, []);
    if Clean(c.Now(), i) {
      CleanIsWanted(c.Now(), i, g, {}, []);
    }
    r := EditOnTheWay(c, i, c.vms[i].(on := false), g, {}, [], from, since);
    if !r.Ok? {
      return r;
    }
    r := ReplaceRules(c, i, current, [], g, {}, from, since);
  }

  lemma OldIsBetween(current: seq<VmRule>, want: seq<VmRule>)
    ensures Between(current, current, want)
  {
    assert current == want[|want|..] + current;
  }

  lemma ValidRules(s: FwState)
    requires FwOK(s)
    ensures RulesValid(s.rules)
  {
  }

  /** No call has failed since, or the last one has, or something else prevents success. */
  ghost predicate Written(trouble: nat, pinTrouble: nat, c: Firewalls, pins: AddressSet, possible: bool, r: Outcome)
    reads c`trouble, pins`trouble
  {
    && c.trouble >= trouble && pins.trouble >= pinTrouble
    && if r.Ok? then possible && c.trouble == trouble && pins.trouble == pinTrouble
       else CallFailed(r) && (!possible || c.trouble > trouble || pins.trouble > pinTrouble)
  }

  /** An instance with groups: the rules and the address first, so that turning
      filtering on never starts from an empty list. */
  method Filter(
    c: Firewalls, i: InstanceId, current: seq<VmRule>, want: seq<VmRule>, g: nat, ids: set<GroupId>,
    pins: AddressSet, prefix: string, routed: string, ghost from: VmFirewall, ghost since: nat)
    returns (r: Outcome)
    requires c.Valid() && UpTo(c.Now(), i, g, ids, want) && c.vms[i] == from && from.list == current && ids != {}
    requires OnTheWay(c.history, since, i, from, ids, want)
    modifies c, pins
    ensures Longer(old(c.history), c.history)
    ensures c.Valid() && UpTo(c.Now(), i, g, ids, want) && OnTheWay(c.history, since, i, from, ids, want)
    ensures r.Ok? ==> AsWanted(c.vms[i], ids, want) && Pinned(pins.entries, Pins(prefix, routed))
    ensures r.Ok? ==> c.vms[i].card == from.card && (from.nic ==> c.vms[i].nic)
    ensures Written(old(c.trouble), old(pins.trouble), c, pins, UpToSlash(prefix) != "", r)
  {
    hide Longer, FwOK, OnTheWay, Between, Wanted, Pinned;
    Growing();
    r := ReplaceRules(c, i, current, want, g, ids, from, since);
    if !r.Ok? {
      return r;
    }
    r := PinAddress(pins, prefix, routed);
    if !r.Ok? {
      return r;
    }
    NewIsBetween(current, want);
    if Clean(c.Now(), i) {
      CleanIsWanted(c.Now(), i, g, ids, want);
    }
    r := EditOnTheWay(c, i, c.vms[i].(on := true), g, ids, want, from, since);
    if !r.Ok? || !c.vms[i].card {
      return r;
    }
    if Clean(c.Now(), i) {
      CleanIsWanted(c.Now(), i, g, ids, want);
    }
    r := EditOnTheWay(c, i, c.vms[i].(nic := true), g, ids, want, from, since);
  }

  lemma NewIsBetween(current: seq<VmRule>, want: seq<VmRule>)
    ensures Between(want, current, want)
  {
    assert want == want + current[..0];
  }

  /** Bringing the VM up to what the row asks for, read after its generation. Whether it
      gets there or fails on the way, the VM is never without what both let through; and it
      gets there if the VM is the instance's own, it has an address if it needs one, and no
      call fails. */
  method ApplyFirewall(
    c: Firewalls, i: InstanceId, g: nat, owned: bool, pins: AddressSet, prefix: string, routed: string,
    ghost h: seq<FwState>, ghost vms: map<InstanceId, VmFirewall>)
    returns (r: Outcome, ghost ids: set<GroupId>, ghost want: seq<VmRule>)
    requires c.Valid() && Claimed(c.Now(), i, g) && i in vms && c.vms[i] == vms[i]
    requires |h| > 0 && vms == h[|h| - 1].vms && Appended(h, c.history, vms) && FwRely(h[|h| - 1], c.Now())
    modifies c, pins
    ensures Longer(old(c.history), c.history)
    ensures c.Valid() && OnTheWay(c.history, |h|, i, vms[i], ids, want) && (ids == {} ==> want == [])
    ensures r.Ok? ==> UpTo(c.Now(), i, g, ids, want) && AsWanted(c.vms[i], ids, want)
    ensures r.Ok? && ids != {} ==> Pinned(pins.entries, Pins(prefix, routed))
    ensures r.Ok? ==> c.vms[i].card == vms[i].card && (ids != {} && vms[i].nic ==> c.vms[i].nic)
    ensures Written(old(c.trouble), old(pins.trouble), c, pins, owned && (ids == {} || UpToSlash(prefix) != ""), r)
    ensures !owned ==> i in c.vms && c.vms[i] == vms[i]
  {
    hide Longer, FwOK, Appended, FwRely, AsWanted, Wanted, OnTheWay, AcceptOnly;
    Growing();
    ids, want := {}, [];
    NothingAllowed();
    NothingDoneYet(h, c.history, vms, i, {}, []);
    r := c.Fate();
    if !r.Ok? || !owned {
      r := if r.Ok? then Err(Failed) else r;
      return;
    }
    r := c.Fate();
    if !r.Ok? {
      return;
    }
    var groups := ReadGroups(c, i, g, h, vms);
    NothingDoneYet(h, c.history, vms, i, {}, []);
    r := c.Fate();
    if !r.Ok? {
      return;
    }
    var current := ReadList(c, i, g, groups, h, vms);
    NothingDoneYet(h, c.history, vms, i, {}, []);
    if groups == {} {
      r := Unfilter(c, i, current, g, |h|);
      return;
    }
    r := c.Fate();
    if !r.Ok? {
      return;
    }
    var desired := ReadRules(c, i, g, groups, h, vms);
    NothingDoneYet(h, c.history, vms, i, groups, desired);
    ids, want := groups, desired;
    r := Filter(c, i, current, desired, g, groups, pins, prefix, routed, vms[i], |h|);
  }

  lemma NothingAllowed()
    ensures AcceptOnly([])
  {
  }

  method ReadGroups(c: Firewalls, i: InstanceId, g: nat, ghost h: seq<FwState>, ghost vms: map<InstanceId, VmFirewall>)
    returns (groups: set<GroupId>)
    requires c.Valid() && Claimed(c.Now(), i, g) && i in vms && c.vms[i] == vms[i]
    requires |h| > 0 && vms == h[|h| - 1].vms && Appended(h, c.history, vms) && FwRely(h[|h| - 1], c.Now())
    modifies c
    ensures Longer(old(c.history), c.history) && c.trouble == old(c.trouble)
    ensures c.Valid() && Read(c.Now(), i, g, groups) && c.vms[i] == vms[i]
    ensures Appended(h, c.history, vms) && FwRely(h[|h| - 1], c.Now())
  {
    hide Longer, FwOK, Appended, FwRely;
    Growing();
    ghost var s, before := c.Now(), c.history;
    Users(c);
    assert FwOK(c.Now()) by { ValidNow(c); }
    ClaimedKeeps(s, c.Now(), i, g);
    AppendedOn(h, before, c.history, h[|h| - 1], s);
    FwRelyTrans(h[|h| - 1], s, c.Now());
    groups := c.rows[i].groups;
  }

  /** More of what users do before the next thing is read. */
  method ReadOn(
    c: Firewalls, i: InstanceId, g: nat, groups: set<GroupId>,
    ghost h: seq<FwState>, ghost vms: map<InstanceId, VmFirewall>)
    requires c.Valid() && Read(c.Now(), i, g, groups) && i in vms && c.vms[i] == vms[i]
    requires |h| > 0 && vms == h[|h| - 1].vms && Appended(h, c.history, vms) && FwRely(h[|h| - 1], c.Now())
    modifies c
    ensures Longer(old(c.history), c.history) && c.trouble == old(c.trouble)
    ensures c.Valid() && Read(c.Now(), i, g, groups) && c.vms[i] == vms[i]
    ensures Appended(h, c.history, vms) && FwRely(h[|h| - 1], c.Now())
  {
    hide Longer, FwOK, Appended, FwRely;
    Growing();
    ghost var s, before := c.Now(), c.history;
    Users(c);
    assert FwOK(c.Now()) by { ValidNow(c); }
    ReadKeeps(s, c.Now(), i, g, groups);
    AppendedOn(h, before, c.history, h[|h| - 1], s);
    FwRelyTrans(h[|h| - 1], s, c.Now());
  }

  method ReadList(
    c: Firewalls, i: InstanceId, g: nat, groups: set<GroupId>,
    ghost h: seq<FwState>, ghost vms: map<InstanceId, VmFirewall>)
    returns (current: seq<VmRule>)
    requires c.Valid() && Read(c.Now(), i, g, groups) && i in vms && c.vms[i] == vms[i]
    requires |h| > 0 && vms == h[|h| - 1].vms && Appended(h, c.history, vms) && FwRely(h[|h| - 1], c.Now())
    modifies c
    ensures Longer(old(c.history), c.history) && c.trouble == old(c.trouble)
    ensures c.Valid() && Read(c.Now(), i, g, groups) && c.vms[i] == vms[i] && current == vms[i].list
    ensures Appended(h, c.history, vms) && FwRely(h[|h| - 1], c.Now())
  {
    hide Longer, FwOK, Appended, FwRely, Read;
    Growing();
    ReadOn(c, i, g, groups, h, vms);
    HasRow(c.Now(), i, g, groups);
    current := c.vms[i].list;
  }

  lemma HasRow(s: FwState, i: InstanceId, g: nat, groups: set<GroupId>)
    requires Read(s, i, g, groups)
    ensures i in s.rows && i in s.vms
  {
  }

  lemma RenderedAccepts(all: seq<GroupRule>)
    requires AllValidated(all)
    ensures AcceptOnly(Rendered(all))
  {
    RenderingKeepsMeaning(all, Packet(In, IcmpKind, false, 0));
  }

  method ReadRules(
    c: Firewalls, i: InstanceId, g: nat, groups: set<GroupId>,
    ghost h: seq<FwState>, ghost vms: map<InstanceId, VmFirewall>)
    returns (want: seq<VmRule>)
    requires c.Valid() && Read(c.Now(), i, g, groups) && i in vms && c.vms[i] == vms[i]
    requires |h| > 0 && vms == h[|h| - 1].vms && Appended(h, c.history, vms) && FwRely(h[|h| - 1], c.Now())
    modifies c
    ensures Longer(old(c.history), c.history) && c.trouble == old(c.trouble)
    ensures c.Valid() && UpTo(c.Now(), i, g, groups, want) && c.vms[i] == vms[i]
    ensures WishAt(c.Now(), groups, want) && AcceptOnly(want)
    ensures Appended(h, c.history, vms)
  {
    hide Longer, FwOK, Appended, FwRely, Read;
    Growing();
    ReadOn(c, i, g, groups, h, vms);
    assert FwOK(c.Now()) by { ValidNow(c); }
    ValidRules(c.Now());
    RulesOfMembers(c.rules, groups);
    var all := RulesOfGroups(c, groups);
    want := RenderFirewall(all);
    RenderedAccepts(all);
    AllRead(c.Now(), i, g, groups, want);
  }

  lemma AllRead(s: FwState, i: InstanceId, g: nat, ids: set<GroupId>, want: seq<VmRule>)
    requires Read(s, i, g, ids) && RulesValid(s.rules) && AllValidated(RulesOf(s.rules, ids))
    requires want == Rendered(RulesOf(s.rules, ids))
    ensures UpTo(s, i, g, ids, want)
  {
  }

  // ------------------------------------------------------------- no gap, end to end

  /** In every state since, what both the VM's firewall at first and the goal let through
      is let through, and what neither does is not. */
  ghost predicate NeverAGap(
    h: seq<FwState>, since: nat, i: InstanceId, from: VmFirewall, ids: set<GroupId>, want: seq<VmRule>)
  {
    forall k, p | since <= k < |h| && i in h[k].vms :: Bridges(h[k].vms[i], from, ids, want, p)
  }

  predicate Bridges(fw: VmFirewall, from: VmFirewall, ids: set<GroupId>, want: seq<VmRule>, p: Packet) {
    && (LetsThrough(from, p) && GoalLets(ids, want, p) ==> LetsThrough(fw, p))
    && (LetsThrough(fw, p) ==> LetsThrough(from, p) || GoalLets(ids, want, p))
  }

  lemma NoGapOnTheWay(
    h: seq<FwState>, since: nat, i: InstanceId, from: VmFirewall, ids: set<GroupId>, want: seq<VmRule>)
    requires OnTheWay(h, since, i, from, ids, want)
    ensures NeverAGap(h, since, i, from, ids, want)
  {
    hide Midway, AcceptOnly, LetsThrough, GoalLets;
    forall k, p | since <= k < |h| && i in h[k].vms ensures Bridges(h[k].vms[i], from, ids, want, p) {
      NoGapMidway(h[k].vms[i], from, ids, want, p);
    }
  }

  /** Writing an instance's firewall and recording the generation read before anything
      else. Success means the VM has caught up with every change made before the call;
      in no state on the way, whether it succeeds or not, has traffic been shut out that
      was and is allowed, or let in that neither was nor is. */
  method WriteFirewall(
    c: Firewalls, i: InstanceId, owned: bool, pins: AddressSet, prefix: string, routed: string)
    returns (r: Outcome, ghost ids: set<GroupId>, ghost want: seq<VmRule>)
    requires c.Valid() && i in c.rows && i in c.vms
    modifies c, pins
    ensures Longer(old(c.history), c.history)
    ensures c.Valid()
    ensures OnTheWay(c.history, |old(c.history)|, i, old(c.vms)[i], ids, want)
    ensures NeverAGap(c.history, |old(c.history)|, i, old(c.vms)[i], ids, want)
    ensures r.Ok? ==> i in c.rows && c.rows[i].applied >= old(c.rows)[i].generation
    ensures r.Ok? ==> i in c.vms && AsWanted(c.vms[i], ids, want)
    ensures r.Ok? && ids != {} ==> Pinned(pins.entries, Pins(prefix, routed))
    ensures !owned ==> i in c.vms && c.vms[i] == old(c.vms)[i]
    ensures Written(old(c.trouble), old(pins.trouble), c, pins, owned && (ids == {} || UpToSlash(prefix) != ""), r)
  {
    hide Longer, FwOK, Appended, FwRely, AsWanted, Wanted, OnTheWay, NeverAGap, Midway;
    Growing();
    ghost var s, h, vms := c.Now(), c.history, c.vms;
    r := c.Fate();
    Users(c);
    ids, want := {}, [];
    NothingAllowed();
    NothingDoneYet(h, c.history, vms, i, {}, []);
    RowStays(s, c.Now(), i);
    if !r.Ok? {
      NoGapOnTheWay(c.history, |h|, i, vms[i], ids, want);
      return;
    }
    var g := c.rows[i].generation;
    assert Claimed(c.Now(), i, g) by { ValidNow(c); }
    r, ids, want := ApplyFirewall(c, i, g, owned, pins, prefix, routed, h, vms);
    if r.Ok? {
      WantedIsMidway(c.vms[i], vms[i], ids, want);
      r := RecordWritten(c, i, g, ids, want, vms[i], |h|);
    }
    NoGapOnTheWay(c.history, |h|, i, vms[i], ids, want);
  }

  /** What was written is recorded, unless that fails. */
  method RecordWritten(
    c: Firewalls, i: InstanceId, g: nat, ghost ids: set<GroupId>, ghost want: seq<VmRule>,
    ghost from: VmFirewall, ghost since: nat)
    returns (r: Outcome)
    requires c.Valid() && UpTo(c.Now(), i, g, ids, want) && AsWanted(c.vms[i], ids, want)
    requires OnTheWay(c.history, since, i, from, ids, want) && Midway(c.vms[i], from, ids, want)
    modifies c
    ensures Longer(old(c.history), c.history)
    ensures c.Valid() && i in c.vms && AsWanted(c.vms[i], ids, want)
    ensures OnTheWay(c.history, since, i, from, ids, want)
    ensures r.Ok? ==> i in c.rows && c.rows[i].applied >= g
    ensures c.Fared(old(c.trouble), r)
  {
    hide Longer, FwOK, Appended, FwRely, AsWanted, Wanted, OnTheWay, Midway;
    Growing();
    ghost var h := c.history;
    LetUsers(c, i, g, ids, want);
    StillOnTheWay(h, c.history, old(c.vms), since, i, from, ids, want);
    ReadyToRecord(c.Now(), i, g, ids, want);
    h := c.history;
    r := c.RecordFirewallApplied(i, g);
    OneStateMore(h, c.Now(), since, i, from, ids, want);
  }

  lemma WantedIsMidway(fw: VmFirewall, from: VmFirewall, ids: set<GroupId>, want: seq<VmRule>)
    requires AsWanted(fw, ids, want) && (ids == {} ==> want == [])
    requires fw.card == from.card && (ids != {} && from.nic ==> fw.nic)
    ensures Midway(fw, from, ids, want)
  {
    assert want == want + from.list[..0];
  }

  lemma RowStays(s: FwState, s': FwState, i: InstanceId)
    requires FwRely(s, s') && i in s.rows && i in s.vms
    ensures i in s'.rows && i in s'.vms && s'.vms[i] == s.vms[i] && s'.rows[i].generation >= s.rows[i].generation
  {
    assert RowRely(s, s', i);
  }

  lemma ReadyToRecord(s: FwState, i: InstanceId, g: nat, ids: set<GroupId>, want: seq<VmRule>)
    requires UpTo(s, i, g, ids, want) && AsWanted(s.vms[i], ids, want)
    ensures RulesValid(s.rules)
    ensures g == s.rows[i].generation && s.rows[i].live ==>
              AsWanted(s.vms[i], s.rows[i].groups, Wanted(s.rules, s.rows[i].groups))
  {
  }

  /** Any number of writings, of any instances, among anything users do: in every
      state on the way, whatever is clean is exactly as it should be. */
  method RunFirewalls(c: Firewalls, pieces: nat)
    requires c.Valid()
    modifies c
    ensures Longer(old(c.history), c.history)
    ensures c.Valid()
  {
    hide Longer;
    Growing();
    for k := 0 to pieces
      invariant Longer(old(c.history), c.history)
      invariant c.Valid()
    {
      Users(c);
      var i := AnyNat();
      if i in c.rows && i in c.vms {
        var owned: bool, made: bool, entries: set<string>, prefix: string, routed: string := *, *, *, *, *;
        var pins := new AddressSet(made, entries);
        var _, _, _ := WriteFirewall(c, i, owned, pins, prefix, routed);
      }
    }
  }
}
