/** Bringing the ledger into step with the instances, one pass at a time. */
module LedgerSync {
  import opened Types
  import opened LedgerBook

  /** What a pass knows of an instance that still exists. */
  datatype Listed = Listed(
    id: string, name: string, owner: string, account: string, hostname: string,
    running: bool, vcpus: nat, memory: nat, ip: Option<AddressId>)

  /** The site's own word on Ansible groups. */
  datatype Groups = Groups(trusted: set<string>, tagsByName: map<string, seq<string>>)

  predicate Hex(c: char) { '0' <= c <= '9' || 'a' <= c <= 'f' }

  /** Named like an instance: `i-` and seventeen hexadecimal digits. */
  predicate LedgerName(name: string) {
    |name| == 19 && name[0] == 'i' && name[1] == '-' && forall k :: 2 <= k < 19 ==> Hex(name[k])
  }

  predicate Spelled(name: string, digits: string) {
    |digits| == 17 && name == "i-" + digits && forall k :: 0 <= k < 17 ==> digits[k] in "0123456789abcdef"
  }

  /** That is every name made of such digits, and no other. */
  lemma LedgerNamesAreIds(name: string)
    ensures LedgerName(name) <==> exists digits :: Spelled(name, digits)
  {
    forall c: char ensures Hex(c) <==> c in "0123456789abcdef" {
      var all := "0123456789abcdef";
      if '0' <= c <= '9' {
        assert all[c as int - '0' as int] == c;
      } else if 'a' <= c <= 'f' {
        assert all[10 + c as int - 'a' as int] == c;
      }
    }
    if LedgerName(name) {
      assert Spelled(name, name[2..]);
    }
    if digits :| Spelled(name, digits) {
      forall k | 2 <= k < 19 ensures Hex(name[k]) {
        assert name[k] == digits[k - 2];
      }
    }
  }

  // --------------------------------------------------------------- one entry

  ghost predicate TagsRight(tags: seq<string>, inst: Listed, groups: Groups) {
    var more := if inst.name != "" && inst.account in groups.trusted && inst.name in groups.tagsByName
        then groups.tagsByName[inst.name] else [];
    && (forall t :: t in tags <==> t == "shakecloud" || t in more)
    && (forall j, k :: 0 <= j < k < |tags| ==> tags[j] != tags[k])
  }

  /** The site's tags for the name, each once, and only for accounts it trusts. */
  method LedgerTags(inst: Listed, groups: Groups) returns (tags: seq<string>)
    ensures TagsRight(tags, inst, groups)
  {
    tags := [TAG];
    if inst.name == "" || inst.account !in groups.trusted || inst.name !in groups.tagsByName {
      return tags;
    }
    var more := groups.tagsByName[inst.name];
    for k := 0 to |more|
      invariant forall t :: t in tags <==> t == TAG || t in more[..k]
      invariant forall j, m :: 0 <= j < m < |tags| ==> tags[j] != tags[m]
    {
      assert more[..k + 1] == more[..k] + [more[k]];
      if more[k] !in tags {
        tags := tags + [more[k]];
      }
    }
    assert more[..|more|] == more;
  }

  function Status(inst: Listed): string { if inst.running then "active" else "offline" }

  function Description(inst: Listed): string {
    if inst.name != "" then inst.name + " / " + inst.owner else inst.owner
  }

  /** The entry says what it should about the instance, its address aside. */
  ghost predicate SpecRight(e: Entry, inst: Listed, groups: Groups) {
    && e.name == inst.id && e.status == (if inst.running then "active" else "offline")
    && e.description == (if inst.name == "" then inst.owner else inst.name + " / " + inst.owner)
    && e.vcpus == inst.vcpus && e.memory == inst.memory && TagsRight(e.tags, inst, groups)
  }

  method LedgerSpec(inst: Listed, groups: Groups) returns (spec: Entry)
    ensures SpecRight(spec, inst, groups) && spec.primary.None?
  {
    var tags := LedgerTags(inst, groups);
    spec := Entry(inst.id, Status(inst), Description(inst), inst.vcpus, inst.memory, tags, None);
  }

  /** Tags are compared regardless of order. */
  predicate LedgerDiffers(e: Entry, spec: Entry) {
    e.status != spec.status || e.description != spec.description || e.vcpus != spec.vcpus || e.memory != spec.memory
    || multiset(e.tags) != multiset(spec.tags)
  }

  lemma SameTagsRight(have: seq<string>, want: seq<string>, inst: Listed, groups: Groups)
    requires multiset(have) == multiset(want) && TagsRight(want, inst, groups)
    ensures TagsRight(have, inst, groups)
  {
    forall t ensures t in have <==> t in want {
      assert t in have <==> t in multiset(have);
      assert t in want <==> t in multiset(want);
    }
    OnceEach(want);
    NoDuplicates(have);
  }

  lemma {:induction false} OnceEach(s: seq<string>)
    requires forall j, k :: 0 <= j < k < |s| ==> s[j] != s[k]
    ensures forall t :: multiset(s)[t] <= 1
  {
    if s != [] {
      var n := |s| - 1;
      OnceEach(s[..n]);
      assert s == s[..n] + [s[n]];
      assert s[n] !in s[..n];
    }
  }

  lemma NoDuplicates(s: seq<string>)
    requires forall t :: multiset(s)[t] <= 1
    ensures forall j, k :: 0 <= j < k < |s| ==> s[j] != s[k]
  {
    forall j, k | 0 <= j < k < |s| ensures s[j] != s[k] {
      assert s == s[..j] + [s[j]] + s[j + 1..];
      assert multiset(s) == multiset(s[..j]) + multiset([s[j]]) + multiset(s[j + 1..]);
      assert s[k] == s[j + 1..][k - j - 1];
      assert multiset(s[j + 1..])[s[k]] >= 1;
      assert multiset(s)[s[j]] >= 1 + multiset(s[j + 1..])[s[j]];
    }
  }

  /** Two lists that are both right for an instance are the same but for order. */
  lemma RightTagsDoNotDiffer(a: seq<string>, b: seq<string>, inst: Listed, groups: Groups)
    requires TagsRight(a, inst, groups) && TagsRight(b, inst, groups)
    ensures multiset(a) == multiset(b)
  {
    OnceEach(a);
    OnceEach(b);
    forall t ensures multiset(a)[t] == multiset(b)[t] {
      assert t in a <==> t in multiset(a);
      assert t in b <==> t in multiset(b);
    }
  }

  // ------------------------------------------------------- what a pass touches

  /** Only the cloud's entries of these names have changed or been made. */
  ghost predicate OnlyNamed(vms: map<nat, Entry>, vms': map<nat, Entry>, names: set<string>) {
    && (forall a :: a in vms && (!Tagged(vms[a]) || vms[a].name !in names) ==> a in vms' && vms'[a] == vms[a])
    && (forall a :: a in vms && Tagged(vms[a]) && vms[a].name in names ==>
         a in vms' && Tagged(vms'[a]) && vms'[a].name == vms[a].name)
    && (forall a :: a in vms' && a !in vms ==> Tagged(vms'[a]) && vms'[a].name in names)
  }

  lemma OnlyNamedOn(x: map<nat, Entry>, y: map<nat, Entry>, z: map<nat, Entry>, names: set<string>, more: set<string>)
    requires OnlyNamed(x, y, names) && OnlyNamed(y, z, more)
    ensures OnlyNamed(x, z, names + more)
  {
  }

  ghost predicate EntryRight(e: Entry, inst: Listed, groups: Groups) {
    Tagged(e) && SpecRight(e, inst, groups) && e.primary == inst.ip
  }

  ghost predicate Registered(vms: map<nat, Entry>, inst: Listed, groups: Groups) {
    exists a :: a in vms && EntryRight(vms[a], inst, groups)
  }

  /** One instance's entry, made or corrected. Nothing is written if it is right already. */
  method RegisterInstance(c: NetBox, inst: Listed, groups: Groups, known: Option<nat>, clusterID: Option<nat>)
    returns (r: Outcome)
    requires inst.ip.Some? && UniqueNames(c.vms)
    requires known.Some? ==> known.value in c.vms && Tagged(c.vms[known.value]) && c.vms[known.value].name == inst.id
    requires known.None? ==> forall a :: a in c.vms && Tagged(c.vms[a]) ==> c.vms[a].name != inst.id
    requires known.None? ==> clusterID == Some(c.cluster)
    modifies c
    ensures OnlyMoved(old(c.attached), c.attached, {inst.ip.value})
    ensures UniqueNames(c.vms) && OnlyNamed(old(c.vms), c.vms, {inst.id}) && c.dns == old(c.dns)
    ensures r.Ok? ==> Registered(c.vms, inst, groups)
    ensures r.Ok? ==>
              || (known.Some? && old(c.vms)[known.value].primary == inst.ip)
              || exists a :: a in c.vms && c.vms[a].name == inst.id && HangsFrom(c.Now(), inst.ip.value, a, "primary")
    ensures known.Some? && EntryRight(old(c.vms)[known.value], inst, groups) ==> c.Now() == old(c.Now()) && r.Ok?
    ensures c.Fared(old(c.trouble), r)
  {
    hide SpecRight, OnlyNamed, UniqueNames;
    var id;
    id, r := MakeOrCorrect(c, inst, groups, known, clusterID);
    if !r.Ok? {
      return r;
    }
    if c.vms[id].primary == inst.ip {
      assert EntryRight(c.vms[id], inst, groups);
      return Ok;
    }
    ghost var vms := c.vms;
    r := GiveAddress(c, id, inst.ip.value);
    PrimaryOnly(vms, id, inst, groups);
    assert r.Ok? ==> EntryRight(c.vms[id], inst, groups);
    OnlyNamedOn(old(c.vms), vms, c.vms, {inst.id}, {inst.id});
    assert {inst.id} + {inst.id} == {inst.id};
  }

  /** Setting an entry's address changes nothing else about it, or about any other. */
  lemma PrimaryOnly(vms: map<nat, Entry>, id: nat, inst: Listed, groups: Groups)
    requires id in vms && Tagged(vms[id]) && vms[id].name == inst.id && UniqueNames(vms)
    requires SpecRight(vms[id], inst, groups)
    ensures OnlyNamed(vms, vms, {inst.id}) && OnlyNamed(vms, vms[id := vms[id].(primary := inst.ip)], {inst.id})
    ensures UniqueNames(vms[id := vms[id].(primary := inst.ip)])
    ensures EntryRight(vms[id].(primary := inst.ip), inst, groups)
  {
    hide TagsRight;
  }

  /** The entry itself: made if there is none, rewritten if it differs. */
  method MakeOrCorrect(c: NetBox, inst: Listed, groups: Groups, known: Option<nat>, clusterID: Option<nat>)
    returns (id: nat, r: Outcome)
    requires UniqueNames(c.vms) && (known.None? ==> clusterID == Some(c.cluster))
    requires known.Some? ==> known.value in c.vms && Tagged(c.vms[known.value]) && c.vms[known.value].name == inst.id
    requires known.None? ==> forall a :: a in c.vms && Tagged(c.vms[a]) ==> c.vms[a].name != inst.id
    modifies c
    ensures UniqueNames(c.vms) && OnlyNamed(old(c.vms), c.vms, {inst.id}) && c.dns == old(c.dns)
    ensures c.attached == old(c.attached)
    ensures r.Ok? ==>
              id in c.vms && Tagged(c.vms[id]) && c.vms[id].name == inst.id && SpecRight(c.vms[id], inst, groups)
    ensures r.Ok? ==> c.vms[id].primary == if known.Some? then old(c.vms)[known.value].primary else None
    ensures known.Some? && SpecRight(old(c.vms)[known.value], inst, groups) ==>
              c.Now() == old(c.Now()) && r.Ok? && id == known.value
    ensures c.Fared(old(c.trouble), r)
  {
    hide TagsRight;
    var spec := LedgerSpec(inst, groups);
    assert TAG in spec.tags by { TagIsRight(spec.tags, inst, groups); }
    if known.None? {
      id, r := c.CreateVM(clusterID.value, spec);
      return id, r;
    }
    id := known.value;
    r := Ok;
    var e := c.vms[id];
    if LedgerDiffers(e, spec) {
      if SpecRight(e, inst, groups) {
        RightTagsDoNotDiffer(e.tags, spec.tags, inst, groups);
      }
      r := c.UpdateVM(id, spec.(primary := e.primary));
    } else {
      SameTagsRight(e.tags, spec.tags, inst, groups);
    }
  }

  lemma TagIsRight(tags: seq<string>, inst: Listed, groups: Groups)
    requires TagsRight(tags, inst, groups)
    ensures TAG in tags
  {
  }

  /** Hanging the address from the entry's interface and making it primary. */
  method GiveAddress(c: NetBox, id: nat, ip: AddressId) returns (r: Outcome)
    requires id in c.vms
    modifies c
    ensures c.dns == old(c.dns) && OnlyMoved(old(c.attached), c.attached, {ip})
    ensures r.Ok? ==> HangsFrom(c.Now(), ip, id, "primary")
    ensures c.vms == old(c.vms) || c.vms == old(c.vms)[id := old(c.vms)[id].(primary := Some(ip))]
    ensures r.Ok? ==> c.vms == old(c.vms)[id := old(c.vms)[id].(primary := Some(ip))]
    ensures c.Fared(old(c.trouble), r)
  {
    var nic;
    nic, r := c.EnsureVMInterface(id, "primary");
    if !r.Ok? {
      return r;
    }
    r := c.AssignIP(ip, nic);
    if !r.Ok? {
      return r;
    }
    r := c.SetPrimaryIP(id, ip);
  }

  // ------------------------------------------------------------- a whole pass

  function Ids(instances: seq<Listed>): set<string> { set k | 0 <= k < |instances| :: instances[k].id }

  /** The instances that have an address, and so an entry. */
  function Addressed(instances: seq<Listed>): set<string> {
    set k | 0 <= k < |instances| && instances[k].ip.Some? :: instances[k].id
  }

  function AddressesOf(instances: seq<Listed>): set<AddressId> {
    set k | 0 <= k < |instances| && instances[k].ip.Some? :: instances[k].ip.value
  }

  ghost predicate Distinct(instances: seq<Listed>) {
    forall j, k :: 0 <= j < k < |instances| ==> instances[j].id != instances[k].id
  }

  /** Every live instance with an address has one right entry, and no dead one has any. */
  ghost predicate InStep(b: Book, instances: seq<Listed>, groups: Groups) {
    && (forall k :: 0 <= k < |instances| && instances[k].ip.Some? ==> Registered(b.vms, instances[k], groups))
    && (forall a :: a in b.vms && Tagged(b.vms[a]) && LedgerName(b.vms[a].name) ==> b.vms[a].name in Ids(instances))
    && (forall k :: 0 <= k < |instances| && instances[k].ip.Some? && instances[k].ip.value in b.dns ==>
          b.dns[instances[k].ip.value] == instances[k].hostname)
  }

  /** What is not the cloud's, not named like an instance or not a removed one, is left alone. */
  ghost predicate OthersLeft(vms: map<nat, Entry>, vms': map<nat, Entry>, instances: seq<Listed>) {
    && (forall a :: a in vms && !Tagged(vms[a]) ==> a in vms' && vms'[a] == vms[a])
    && (forall a | a in vms && vms[a].name !in Addressed(instances)
          :: vms[a].name in Ids(instances) || !LedgerName(vms[a].name) ==>
          a in vms' && vms'[a] == vms[a])
    && (forall a :: a in vms' && a !in vms ==> Tagged(vms'[a]) && vms'[a].name in Addressed(instances))
  }

  /** The entry a listing has for a name. */
  method Find(listing: map<nat, Entry>, name: string) returns (known: Option<nat>)
    ensures known.Some? ==> known.value in listing && listing[known.value].name == name
    ensures known.None? ==> forall a :: a in listing ==> listing[a].name != name
  {
    if a :| a in listing && listing[a].name == name {
      known := Some(a);
    } else {
      known := None;
    }
  }

  /** What is registered stays so while other names are written. */
  lemma StaysRegistered(vms: map<nat, Entry>, vms': map<nat, Entry>, inst: Listed, groups: Groups, names: set<string>)
    requires Registered(vms, inst, groups) && OnlyNamed(vms, vms', names) && inst.id !in names
    ensures Registered(vms', inst, groups)
  {
    var a :| a in vms && EntryRight(vms[a], inst, groups);
    assert EntryRight(vms'[a], inst, groups);
  }

  /** The entry of an instance not dealt with yet is still what the listing said. */
  lemma StillListed(vms: map<nat, Entry>, vms': map<nat, Entry>, known: Option<nat>, inst: Listed, names: set<string>)
    requires OnlyNamed(vms, vms', names) && inst.id !in names
    requires known.Some? ==> known.value in vms && Tagged(vms[known.value]) && vms[known.value].name == inst.id
    requires known.None? ==> forall a :: a in vms && Tagged(vms[a]) ==> vms[a].name != inst.id
    ensures known.Some? ==> known.value in vms' && vms'[known.value] == vms[known.value]
    ensures known.None? ==> forall a :: a in vms' && Tagged(vms'[a]) ==> vms'[a].name != inst.id
  {
  }

  /** What is registered stays so, and so does the next instance unless it is refused. */
  lemma StayRegistered(
    vms: map<nat, Entry>, vms': map<nat, Entry>, instances: seq<Listed>, groups: Groups, n: nat,
    refused: set<nat>, refused': set<nat>, names: set<string>)
    requires n < |instances| && Distinct(instances) && RegisteredBut(vms, instances, groups, n, refused)
    requires refused' == refused || refused' == refused + {n}
    requires OnlyNamed(vms, vms', names) && names <= {instances[n].id}
    requires n in refused' || instances[n].ip.None? || Registered(vms', instances[n], groups)
    ensures RegisteredBut(vms', instances, groups, n + 1, refused')
  {
    hide Registered, OnlyNamed;
    forall k | 0 <= k < n + 1 && k !in refused' && instances[k].ip.Some?
      ensures Registered(vms', instances[k], groups)
    {
      if k < n {
        StaysRegistered(vms, vms', instances[k], groups, names);
      }
    }
  }

  ghost predicate RegisteredUpTo(vms: map<nat, Entry>, instances: seq<Listed>, groups: Groups, n: nat)
    requires n <= |instances|
  {
    RegisteredBut(vms, instances, groups, n, {})
  }

  /** The same but for these. */
  ghost predicate RegisteredBut(
    vms: map<nat, Entry>, instances: seq<Listed>, groups: Groups, n: nat, refused: set<nat>)
    requires n <= |instances|
  {
    forall k :: 0 <= k < n && k !in refused && instances[k].ip.Some? ==> Registered(vms, instances[k], groups)
  }

  /** The same, with the cluster looked up first if a new entry is the first of the pass. */
  method RegisterOne(c: NetBox, inst: Listed, groups: Groups, known: Option<nat>, clusterID: Option<nat>)
    returns (r: Outcome, over: bool, clusterID': Option<nat>)
    requires inst.ip.Some? && UniqueNames(c.vms)
    requires known.Some? ==> known.value in c.vms && Tagged(c.vms[known.value]) && c.vms[known.value].name == inst.id
    requires known.None? ==> forall a :: a in c.vms && Tagged(c.vms[a]) ==> c.vms[a].name != inst.id
    requires clusterID.Some? ==> clusterID.value == c.cluster
    modifies c
    ensures clusterID'.Some? ==> clusterID'.value == c.cluster
    ensures OnlyMoved(old(c.attached), c.attached, {inst.ip.value})
    ensures UniqueNames(c.vms) && OnlyNamed(old(c.vms), c.vms, {inst.id}) && c.dns == old(c.dns)
    ensures r.Ok? ==> Registered(c.vms, inst, groups)
    ensures known.Some? && EntryRight(old(c.vms)[known.value], inst, groups) ==> c.Now() == old(c.Now()) && r.Ok?
    ensures c.Fared(old(c.trouble), r) && (over ==> !r.Ok? && c.Now() == old(c.Now()))
  {
    hide SpecRight, OnlyNamed, UniqueNames;
    over, clusterID' := false, clusterID;
    if known.None? && clusterID.None? {
      var looked;
      looked, r := c.ClusterID();
      if !r.Ok? {
        NothingNamed(c.vms, {inst.id});
        return r, true, None;
      }
      clusterID' := Some(looked);
    }
    r := RegisterInstance(c, inst, groups, known, clusterID');
  }

  lemma PartNamed(vms: map<nat, Entry>, vms': map<nat, Entry>, instances: seq<Listed>, n: nat)
    requires n < |instances| && OnlyNamed(vms, vms', Addressed(instances[..n]))
    ensures OnlyNamed(vms, vms', Addressed(instances))
  {
    forall id | id in Addressed(instances[..n]) ensures id in Addressed(instances) {
      var k :| 0 <= k < n && instances[..n][k].ip.Some? && instances[..n][k].id == id;
      assert instances[k].id == id;
    }
  }

  /** The same for an instance whose entry, if there is one, is as listed at first. */
  method RegisterListed(
    c: NetBox, inst: Listed, groups: Groups, listing: map<nat, Entry>, clusterID: Option<nat>,
    ghost vms: map<nat, Entry>, ghost names: set<string>)
    returns (r: Outcome, over: bool, clusterID': Option<nat>)
    requires inst.ip.Some? && UniqueNames(vms) && UniqueNames(c.vms) && OnlyNamed(vms, c.vms, names)
    requires inst.id !in names && listing == map a | a in vms && Tagged(vms[a]) :: vms[a]
    requires clusterID.Some? ==> clusterID.value == c.cluster
    modifies c
    ensures clusterID'.Some? ==> clusterID'.value == c.cluster
    ensures OnlyMoved(old(c.attached), c.attached, {inst.ip.value})
    ensures UniqueNames(c.vms) && OnlyNamed(old(c.vms), c.vms, {inst.id}) && c.dns == old(c.dns)
    ensures r.Ok? ==> Registered(c.vms, inst, groups)
    ensures Registered(vms, inst, groups) ==> c.Now() == old(c.Now()) && r.Ok?
    ensures c.Fared(old(c.trouble), r) && (over ==> !r.Ok? && c.Now() == old(c.Now()))
  {
    hide UniqueNames, OnlyNamed, OnlyMoved, Registered, EntryRight;
    assert forall a :: a in vms && Tagged(vms[a]) ==> a in listing && listing[a] == vms[a];
    var known := Find(listing, inst.id);
    StillListed(vms, c.vms, known, inst, names);
    if Registered(vms, inst, groups) {
      OneEntry(vms, inst, groups, known);
    }
    r, over, clusterID' := RegisterOne(c, inst, groups, known, clusterID);
  }

  /** Every instance with an address, one after the other; a refusal does not stop the rest,
      but not knowing the cluster does, and is the end of the pass. */
  method RegisterAll(c: NetBox, instances: seq<Listed>, groups: Groups, listing: map<nat, Entry>)
    returns (failed: bool, over: bool, ghost refused: set<nat>)
    requires Distinct(instances) && UniqueNames(c.vms) && listing == map a | a in c.vms && Tagged(c.vms[a]) :: c.vms[a]
    modifies c
    ensures UniqueNames(c.vms) && OnlyNamed(old(c.vms), c.vms, Addressed(instances)) && c.dns == old(c.dns)
    ensures c.trouble == old(c.trouble) + |refused| && (failed <==> refused != {}) && (over ==> failed)
    ensures !failed ==> RegisteredUpTo(c.vms, instances, groups, |instances|)
    ensures !over ==> RegisteredBut(c.vms, instances, groups, |instances|, refused)
    ensures OnlyMoved(old(c.attached), c.attached, AddressesOf(instances))
    ensures RegisteredUpTo(old(c.vms), instances, groups, |instances|) ==> c.Now() == old(c.Now())
  {
    hide UniqueNames, OnlyNamed, Registered, OnlyMoved, Addressed, AddressesOf, Tagged, Distinct,
         RegisteredBut, RegisteredUpTo;
    NothingMoved(c.attached, AddressesOf(instances));
    NothingNamed(c.vms, Addressed(instances[..0]));
    NoneRegistered(c.vms, instances, groups);
    failed, over, refused := false, false, {};
    var clusterID: Option<nat> := None;
    for n := 0 to |instances|
      invariant UniqueNames(c.vms) && OnlyNamed(old(c.vms), c.vms, Addressed(instances[..n])) && c.dns == old(c.dns)
      invariant RegisteredBut(c.vms, instances, groups, n, refused) && forall k :: k in refused ==> k < n
      invariant c.trouble == old(c.trouble) + |refused| && (failed <==> refused != {})
      invariant OnlyMoved(old(c.attached), c.attached, AddressesOf(instances))
      invariant clusterID.Some? ==> clusterID.value == c.cluster
      invariant RegisteredUpTo(old(c.vms), instances, groups, |instances|) ==> c.Now() == old(c.Now())
    {
      var inst := instances[n];
      var own := if inst.ip.Some? then {inst.id} else {};
      assert Addressed(instances[..n + 1]) == Addressed(instances[..n]) + own by { OneMore(instances, n); }
      ghost var vms, attached, before := c.vms, c.attached, refused;
      assert inst.id !in Addressed(instances[..n]) by { NotEarlier(instances, n); }
      if inst.ip.Some? {
        if RegisteredUpTo(old(c.vms), instances, groups, |instances|) {
          OneRegistered(old(c.vms), instances, groups, n);
        }
        var r;
        r, over, clusterID :=
          RegisterListed(c, inst, groups, listing, clusterID, old(c.vms), Addressed(instances[..n]));
        if !r.Ok? {
          failed, refused := true, refused + {n};
        }
        if over {
          PartNamed(old(c.vms), c.vms, instances, n);
          return;
        }
      } else {
        NothingNamed(c.vms, {});
        NothingMoved(c.attached, {});
      }
      StayRegistered(vms, c.vms, instances, groups, n, before, refused, own);
      MovedOn(old(c.attached), attached, c.attached, instances, n);
      OnlyNamedOn(old(c.vms), vms, c.vms, Addressed(instances[..n]), own);
    }
    assert instances[..|instances|] == instances;
    AllRegistered(c.vms, instances, groups, refused);
  }

  lemma NoneRegistered(vms: map<nat, Entry>, instances: seq<Listed>, groups: Groups)
    ensures RegisteredBut(vms, instances, groups, 0, {})
  {
  }

  lemma OneRegistered(vms: map<nat, Entry>, instances: seq<Listed>, groups: Groups, n: nat)
    requires n < |instances| && instances[n].ip.Some? && RegisteredUpTo(vms, instances, groups, |instances|)
    ensures Registered(vms, instances[n], groups)
  {
    hide Registered;
  }

  lemma AllRegistered(vms: map<nat, Entry>, instances: seq<Listed>, groups: Groups, refused: set<nat>)
    ensures RegisteredBut(vms, instances, groups, |instances|, refused) && refused == {} ==>
              RegisteredUpTo(vms, instances, groups, |instances|)
  {
  }

  lemma NothingMoved(attached: map<AddressId, nat>, ips: set<AddressId>)
    ensures OnlyMoved(attached, attached, ips)
  {
  }

  lemma MovedOn(
    x: map<AddressId, nat>, y: map<AddressId, nat>, z: map<AddressId, nat>, instances: seq<Listed>, n: nat)
    requires n < |instances| && OnlyMoved(x, y, AddressesOf(instances))
    requires OnlyMoved(y, z, if instances[n].ip.Some? then {instances[n].ip.value} else {})
    ensures OnlyMoved(x, z, AddressesOf(instances))
  {
    if instances[n].ip.Some? {
      assert instances[n].ip.value in AddressesOf(instances);
    }
  }

  lemma NothingNamed(vms: map<nat, Entry>, names: set<string>)
    ensures OnlyNamed(vms, vms, names)
  {
  }

  lemma OneMore(instances: seq<Listed>, n: nat)
    requires n < |instances|
    ensures Addressed(instances[..n + 1]) ==
              Addressed(instances[..n]) + if instances[n].ip.Some? then {instances[n].id} else {}
  {
    var some, more := instances[..n], instances[..n + 1];
    var last := if instances[n].ip.Some? then {instances[n].id} else {};
    forall id | id in Addressed(more) ensures id in Addressed(some) + last {
      var k :| 0 <= k < |more| && more[k].ip.Some? && more[k].id == id;
      assert k < n ==> some[k].id == id;
    }
    forall id | id in Addressed(some) + last ensures id in Addressed(more) {
      if id in Addressed(some) {
        var k :| 0 <= k < |some| && some[k].ip.Some? && some[k].id == id;
        assert more[k].id == id;
      } else {
        assert more[n].id == id;
      }
    }
  }

  lemma NotEarlier(instances: seq<Listed>, n: nat)
    requires Distinct(instances) && n < |instances|
    ensures instances[n].id !in Addressed(instances[..n])
  {
  }

  /** With unique names the right entry is the one the listing finds. */
  lemma OneEntry(vms: map<nat, Entry>, inst: Listed, groups: Groups, known: Option<nat>)
    requires UniqueNames(vms) && Registered(vms, inst, groups)
    requires known.Some? ==> known.value in vms && Tagged(vms[known.value]) && vms[known.value].name == inst.id
    requires known.None? ==> forall a :: a in vms && Tagged(vms[a]) ==> vms[a].name != inst.id
    ensures known.Some? && EntryRight(vms[known.value], inst, groups)
  {
    var a :| a in vms && EntryRight(vms[a], inst, groups);
  }

  /** Keeping each address's DNS name on its instance's. */
  method SyncDNSNames(c: NetBox, instances: seq<Listed>) returns (failed: bool)
    requires forall j, k | 0 <= j < k < |instances| && instances[j].ip.Some? :: instances[j].ip != instances[k].ip
    modifies c
    ensures c.vms == old(c.vms) && c.attached == old(c.attached)
    ensures c.trouble >= old(c.trouble) && (failed <==> c.trouble > old(c.trouble))
    ensures !failed ==> NamesRight(c.dns, instances, |instances|)
    ensures NamesRight(old(c.dns), instances, |instances|) ==> c.Now() == old(c.Now())
    ensures forall ip :: ip in old(c.dns) && (forall k :: 0 <= k < |instances| ==> instances[k].ip != Some(ip)) ==>
              ip in c.dns && c.dns[ip] == old(c.dns)[ip]
  {
    hide NamesRight, NamesRightBut;
    var listed, r := c.IPAddressesByTag();
    if !r.Ok? {
      return true;
    }
    ghost var refused;
    failed, refused := SetNames(c, instances, listed);
    AllNamed(c.dns, instances, refused);
  }

  /** One after the other, and one that is refused does not keep the others from theirs. */
  method SetNames(c: NetBox, instances: seq<Listed>, listed: map<AddressId, string>)
    returns (failed: bool, ghost refused: set<nat>)
    requires listed == c.dns
    requires forall j, k | 0 <= j < k < |instances| && instances[j].ip.Some? :: instances[j].ip != instances[k].ip
    modifies c
    ensures c.vms == old(c.vms) && c.attached == old(c.attached)
    ensures c.trouble == old(c.trouble) + |refused| && (failed <==> refused != {})
    ensures NamesRightBut(c.dns, instances, |instances|, refused)
    ensures NamesRight(old(c.dns), instances, |instances|) ==> c.Now() == old(c.Now())
    ensures forall ip :: ip in old(c.dns) && (forall k :: 0 <= k < |instances| ==> instances[k].ip != Some(ip)) ==>
              ip in c.dns && c.dns[ip] == old(c.dns)[ip]
  {
    hide NamesRight, NamesRightBut;
    NoneNamed(c.dns, instances);
    failed, refused := false, {};
    for n := 0 to |instances|
      invariant c.vms == old(c.vms) && c.attached == old(c.attached) && c.dns.Keys == listed.Keys
      invariant c.trouble == old(c.trouble) + |refused| && (failed <==> refused != {})
      invariant forall k :: k in refused ==> k < n
      invariant forall ip :: ip in listed && (forall k :: 0 <= k < n ==> instances[k].ip != Some(ip)) ==>
                  c.dns[ip] == listed[ip]
      invariant NamesRightBut(c.dns, instances, n, refused)
      invariant NamesRight(old(c.dns), instances, |instances|) ==> c.Now() == old(c.Now())
    {
      ghost var dns, before := c.dns, refused;
      if instances[n].ip.Some? {
        var ip := instances[n].ip.value;
        if ip in listed && listed[ip] != instances[n].hostname {
          var r := c.SetDNSName(ip, instances[n].hostname);
          if !r.Ok? {
            failed, refused := true, refused + {n};
          }
        }
      }
      StayNamed(dns, c.dns, instances, n, before, refused);
      AlreadyNamed(old(c.dns), instances, n);
    }
  }

  lemma NoneNamed(dns: map<AddressId, string>, instances: seq<Listed>)
    ensures NamesRightBut(dns, instances, 0, {})
  {
  }

  lemma AllNamed(dns: map<AddressId, string>, instances: seq<Listed>, refused: set<nat>)
    ensures NamesRightBut(dns, instances, |instances|, refused) && refused == {} ==>
              NamesRight(dns, instances, |instances|)
  {
  }

  lemma AlreadyNamed(dns: map<AddressId, string>, instances: seq<Listed>, n: nat)
    requires n < |instances|
    ensures NamesRight(dns, instances, |instances|) && instances[n].ip.Some? && instances[n].ip.value in dns ==>
              dns[instances[n].ip.value] == instances[n].hostname
  {
  }

  /** Writing the next address's name, unless it is refused, leaves the others'. */
  lemma StayNamed(
    dns: map<AddressId, string>, dns': map<AddressId, string>, instances: seq<Listed>, n: nat,
    refused: set<nat>, refused': set<nat>)
    requires n < |instances| && NamesRightBut(dns, instances, n, refused)
    requires refused' == refused || refused' == refused + {n}
    requires forall j, k | 0 <= j < k < |instances| && instances[j].ip.Some? :: instances[j].ip != instances[k].ip
    requires dns'.Keys == dns.Keys
             && forall ip :: ip in dns && instances[n].ip != Some(ip) ==> dns'[ip] == dns[ip]
    requires n in refused' || instances[n].ip.None? || instances[n].ip.value !in dns'
             || dns'[instances[n].ip.value] == instances[n].hostname
    ensures NamesRightBut(dns', instances, n + 1, refused')
  {
  }

  ghost predicate NamesRight(dns: map<AddressId, string>, instances: seq<Listed>, n: nat)
    requires n <= |instances|
  {
    NamesRightBut(dns, instances, n, {})
  }

  /** The same but for these. */
  ghost predicate NamesRightBut(dns: map<AddressId, string>, instances: seq<Listed>, n: nat, refused: set<nat>)
    requires n <= |instances|
  {
    forall k :: 0 <= k < n && k !in refused && instances[k].ip.Some? && instances[k].ip.value in dns ==>
        dns[instances[k].ip.value] == instances[k].hostname
  }

  /** Removing the entries of instances that are gone. */
  method RemoveDead(c: NetBox, instances: seq<Listed>, listing: map<nat, Entry>) returns (r: Outcome)
    requires forall a :: a in listing ==> a in c.vms && Tagged(c.vms[a]) && c.vms[a].name == listing[a].name
    requires forall a :: a in c.vms && Tagged(c.vms[a]) ==> a in listing || c.vms[a].name in Ids(instances)
    modifies c
    ensures c.dns == old(c.dns) && c.attached == old(c.attached) && c.Fared(old(c.trouble), r)
    ensures forall a :: a in c.vms ==> a in old(c.vms) && c.vms[a] == old(c.vms)[a]
    ensures forall a | a in old(c.vms) && (!Tagged(old(c.vms)[a]) || !LedgerName(old(c.vms)[a].name)) :: a in c.vms
    ensures forall a | a in old(c.vms) && old(c.vms)[a].name in Ids(instances) :: a in c.vms
    ensures r.Ok? ==> forall a :: a in c.vms && Tagged(c.vms[a]) && LedgerName(c.vms[a].name) ==>
              c.vms[a].name in Ids(instances)
    ensures (forall a :: a in listing && LedgerName(listing[a].name) ==> listing[a].name in Ids(instances)) ==>
              c.Now() == old(c.Now())
  {
    hide Tagged, LedgerName, Ids;
    r := Ok;
    var live := Ids(instances);
    var rest := listing.Keys;
    while rest != {}
      invariant rest <= listing.Keys && c.dns == old(c.dns)
      invariant c.attached == old(c.attached) && c.trouble == old(c.trouble)
      invariant forall a :: a in c.vms ==> a in old(c.vms) && c.vms[a] == old(c.vms)[a]
      invariant forall a | a in old(c.vms) && (!Tagged(old(c.vms)[a]) || !LedgerName(old(c.vms)[a].name)) :: a in c.vms
      invariant forall a | a in old(c.vms) && old(c.vms)[a].name in live :: a in c.vms
      invariant forall a :: a in listing && a !in rest && LedgerName(listing[a].name) && listing[a].name !in live ==>
                  a !in c.vms
      invariant (forall a :: a in listing && LedgerName(listing[a].name) ==> listing[a].name in live) ==>
                  c.Now() == old(c.Now())
      decreases |rest|
    {
      var a :| a in rest;
      rest := rest - {a};
      if listing[a].name !in live && LedgerName(listing[a].name) {
        r := c.DeleteVM(a);
        if !r.Ok? {
          return r;
        }
      }
    }
    r := Ok;
  }

  /** One pass. It is in error exactly if a call failed. Without an error the ledger is in step
      afterwards; error or not, what is not the cloud's is left alone; and a ledger already in
      step is not written to. */
  method SyncLedger(c: NetBox, instances: seq<Listed>, groups: Groups) returns (failed: bool)
    requires UniqueNames(c.vms) && Distinct(instances)
    requires forall j, k | 0 <= j < k < |instances| && instances[j].ip.Some? :: instances[j].ip != instances[k].ip
    modifies c
    ensures UniqueNames(c.vms) && OthersLeft(old(c.vms), c.vms, instances)
    ensures failed <==> c.trouble > old(c.trouble)
    ensures OnlyMoved(old(c.attached), c.attached, AddressesOf(instances))
    ensures !failed ==> InStep(c.Now(), instances, groups)
    ensures InStep(old(c.Now()), instances, groups) ==> c.Now() == old(c.Now())
  {
    hide Registered, OnlyNamed, UniqueNames, InStep, OthersLeft, NamesRight, RegisteredUpTo, LedgerName, Ids,
        Addressed, Distinct, Tagged;
    NothingTouched(c.vms, instances);
    var listing, r := c.VMsByTag();
    if !r.Ok? {
      return true;
    }
    StepsOf(c.Now(), instances, groups, listing);
    var over;
    ghost var refused;
    failed, over, refused := RegisterAll(c, instances, groups, listing);
    ghost var vms := c.vms;
    NamedOnly(old(c.vms), vms, instances);
    if over {
      return true;
    }
    var unnamed := SyncDNSNames(c, instances);
    ListingHolds(old(c.vms), vms, instances, listing);
    r := RemoveDead(c, instances, listing);
    SurvivorsUnique(vms, c.vms);
    PassLeaves(old(c.vms), vms, c.vms, instances);
    failed := failed || unnamed || !r.Ok?;
    if !failed {
      PassInStep(vms, c.Now(), instances, groups);
    }
  }

  lemma NothingTouched(vms: map<nat, Entry>, instances: seq<Listed>)
    ensures OthersLeft(vms, vms, instances)
  {
  }

  lemma NamedOnly(vms: map<nat, Entry>, vms': map<nat, Entry>, instances: seq<Listed>)
    requires OnlyNamed(vms, vms', Addressed(instances))
    ensures OthersLeft(vms, vms', instances)
  {
    hide LedgerName;
  }

  /** A ledger in step gives none of the three parts of a pass anything to do. */
  lemma StepsOf(b: Book, instances: seq<Listed>, groups: Groups, listing: map<nat, Entry>)
    requires listing == map a | a in b.vms && Tagged(b.vms[a]) :: b.vms[a]
    ensures InStep(b, instances, groups) ==>
              && RegisteredUpTo(b.vms, instances, groups, |instances|) && NamesRight(b.dns, instances, |instances|)
              && forall a :: a in listing && LedgerName(listing[a].name) ==> listing[a].name in Ids(instances)
  {
    hide Registered, LedgerName;
  }

  lemma SurvivorsUnique(vms: map<nat, Entry>, vms': map<nat, Entry>)
    requires UniqueNames(vms) && forall a :: a in vms' ==> a in vms && vms'[a] == vms[a]
    ensures UniqueNames(vms')
  {
  }

  lemma PassLeaves(x: map<nat, Entry>, y: map<nat, Entry>, z: map<nat, Entry>, instances: seq<Listed>)
    requires OnlyNamed(x, y, Addressed(instances)) && forall a :: a in z ==> a in y && z[a] == y[a]
    requires forall a :: a in y && (!Tagged(y[a]) || !LedgerName(y[a].name) || y[a].name in Ids(instances)) ==> a in z
    ensures OthersLeft(x, z, instances)
  {
    hide LedgerName;
  }

  lemma PassInStep(y: map<nat, Entry>, b: Book, instances: seq<Listed>, groups: Groups)
    requires RegisteredUpTo(y, instances, groups, |instances|) && NamesRight(b.dns, instances, |instances|)
    requires forall a :: a in b.vms ==> a in y && b.vms[a] == y[a]
    requires forall a :: a in y && (!Tagged(y[a]) || !LedgerName(y[a].name) || y[a].name in Ids(instances)) ==>
               a in b.vms
    requires forall a :: a in b.vms && Tagged(b.vms[a]) && LedgerName(b.vms[a].name) ==> b.vms[a].name in Ids(instances)
    ensures InStep(b, instances, groups)
  {
    hide LedgerName, TagsRight;
    forall k | 0 <= k < |instances| && instances[k].ip.Some? ensures Registered(b.vms, instances[k], groups) {
      var a :| a in y && EntryRight(y[a], instances[k], groups);
      assert EntryRight(b.vms[a], instances[k], groups);
    }
  }

  lemma ListingHolds(vms: map<nat, Entry>, vms': map<nat, Entry>, instances: seq<Listed>, listing: map<nat, Entry>)
    requires OnlyNamed(vms, vms', Addressed(instances)) && listing == map a | a in vms && Tagged(vms[a]) :: vms[a]
    ensures forall a :: a in listing ==> a in vms' && Tagged(vms'[a]) && vms'[a].name == listing[a].name
    ensures forall a :: a in vms' && Tagged(vms'[a]) ==> a in listing || vms'[a].name in Ids(instances)
  {
  }
}
