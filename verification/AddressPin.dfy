/** The set of source addresses a filtered guest may send from. */
module AddressPin {
  import opened Types
  import opened FirewallRules
  import opened Backends

  const GLOBAL_IPV6 := "2000::/3"

  /** An address as Proxmox reports it, its own length left out. */
  function Trim(entry: string): string {
    if |entry| >= 3 && entry[|entry| - 3..] == "/32" then entry[..|entry| - 3] else entry
  }

  lemma TrimLeavesOut(entry: string)
    ensures Trim(entry + "/32") == entry
    ensures (forall e :: e + "/32" != entry) ==> Trim(entry) == entry
  {
    var n := |entry|;
    assert (entry + "/32")[n..] == "/32" && (entry + "/32")[..n] == entry;
    if n >= 3 && entry[n - 3..] == "/32" {
      assert entry[..n - 3] + "/32" == entry;
    }
  }

  /** An instance's address without its length. */
  function UpToSlash(s: string): (r: string)
    ensures |r| <= |s| && r == s[..|r|] && '/' !in r && (|r| < |s| ==> s[|r|] == '/')
  {
    if s == "" || s[0] == '/' then "" else [s[0]] + UpToSlash(s[1..])
  }

  class AddressSet {
    var made: bool
    var entries: set<string>

    /** What it has held after each call that may have changed it. */
    ghost var history: seq<set<string>>

    /** How many calls have failed so far, or lost their reply. */
    ghost var trouble: nat

    /** No call has failed since, or the last one has. */
    ghost predicate Fared(before: nat, r: Outcome)
      reads this`trouble
    {
      if r.Ok? then trouble == before else CallFailed(r) && trouble > before
    }

    /** Whatever the VM has. */
    constructor (made: bool, entries: set<string>)
      ensures this.made == made && this.entries == entries
    {
      this.made, this.entries, this.history, this.trouble := made, entries, [], 0;
    }

    /** Making the set, which must not be there yet. */
    method Make() returns (r: Outcome)
      requires !made
      modifies this
      ensures entries == old(entries) && (r.Ok? ==> made)
      ensures history == old(history) + [entries]
      ensures Fared(old(trouble), r)
    {
      var fails: bool := *;
      if !fails {
        made := true;
      }
      r := Reply(fails);
    }

    /** One call: adding an entry or taking one out. */
    method Change(entries': set<string>) returns (r: Outcome)
      requires made
      modifies this
      ensures made && (entries == old(entries) || entries == entries')
      ensures r.Ok? ==> entries == entries'
      ensures history == old(history) + [entries]
      ensures Fared(old(trouble), r)
    {
      var fails: bool := *;
      if !fails {
        entries := entries';
      }
      r := Reply(fails);
    }

    /** Its reply, which may get lost. */
    method Reply(fails: bool) returns (r: Outcome)
      modifies this`history, this`trouble
      ensures r.Ok? ==> !fails
      ensures history == old(history) + [entries]
      ensures Fared(old(trouble), r)
    {
      var lost: bool := *;
      r := Ok;
      if fails || lost {
        r := Failure();
      }
      history, trouble := history + [entries], trouble + if r.Ok? then 0 else 1;
    }

    /** What it holds. */
    method Read() returns (made': bool, entries': set<string>, r: Outcome)
      modifies this`trouble
      ensures r.Ok? ==> made' == made && entries' == entries
      ensures Fared(old(trouble), r)
    {
      made', entries' := made, entries;
      var fails: bool := *;
      r := Ok;
      if fails {
        r := Failure();
        trouble := trouble + 1;
      }
    }
  }

  predicate Belongs(wanted: seq<string>, e: string) { Trim(e) in wanted || e in wanted }

  /** The set holds what is wanted, perhaps written with its length, and nothing else. */
  ghost predicate Pinned(entries: set<string>, wanted: seq<string>) {
    && (forall e :: e in entries ==> Belongs(wanted, e))
    && (forall w :: w in wanted ==> Covered(entries, w))
  }

  ghost predicate Covered(entries: set<string>, w: string) {
    w in entries || exists e :: e in entries && Trim(e) == w
  }

  /** In every state since, it has been covered. */
  ghost predicate AlwaysCovered(h: seq<set<string>>, since: nat, w: string) {
    forall k :: since <= k < |h| ==> Covered(h[k], w)
  }

  /** What was covered and is wanted has been covered ever since. A wanted address written with
      its length of 32 is the exception: its entry is not recognized. */
  ghost predicate NeverLost(h: seq<set<string>>, since: nat, before: set<string>, wanted: seq<string>) {
    forall w | w in wanted && Trim(w) == w && Covered(before, w) :: AlwaysCovered(h, since, w)
  }

  lemma NotLostYet(
    h: seq<set<string>>, entries: set<string>, since: nat, before: set<string>, wanted: seq<string>)
    requires NeverLost(h, since, before, wanted)
    requires forall w | w in wanted && Trim(w) == w && Covered(before, w) :: Covered(entries, w)
    ensures NeverLost(h + [entries], since, before, wanted)
  {
    forall w, k | w in wanted && Trim(w) == w && Covered(before, w) && since <= k < |h| + 1
      ensures Covered((h + [entries])[k], w)
    {
      if k < |h| {
        assert AlwaysCovered(h, since, w);
      }
    }
  }

  /** Only entries that are recognized stay, so such an address is taken out and put in again. */
  lemma WrittenOutIsNotKept(entries: set<string>, wanted: seq<string>)
    requires forall e :: e in entries ==> Trim(e) in wanted
    ensures forall w | Trim(w) != w && Trim(w) !in wanted :: w !in entries
  {
  }

  function WithoutAt(s: seq<string>, k: nat): seq<string>
    requires k < |s|
  {
    s[..k] + s[k + 1..]
  }

  method IndexOf(s: seq<string>, x: string) returns (k: nat)
    ensures k < |s| ==> s[k] == x
    ensures k <= |s| && (k == |s| ==> x !in s)
  {
    k := 0;
    while k < |s|
      invariant k <= |s| && x !in s[..k]
    {
      if s[k] == x {
        return;
      }
      assert s[..k + 1] == s[..k] + [s[k]];
      k := k + 1;
    }
    assert s[..k] == s;
  }

  /** What an instance is pinned to: its address, global IPv6 and, where the site routes a
      network to it, that network. */
  function Pins(prefix: string, routed: string): seq<string> {
    [UpToSlash(prefix), "2000::/3"] + if routed != "" then [routed] else []
  }

  /** Making the set hold exactly the instance's address, global IPv6 and, where the
      site routes a network to the instance, that network, each once. What was there and is
      wanted is never missing on the way. */
  method PinAddress(c: AddressSet, prefix: string, routed: string) returns (r: Outcome)
    modifies c
    ensures r.Ok? ==> UpToSlash(prefix) != "" && c.made
    ensures r.Ok? ==> Pinned(c.entries, Pins(prefix, routed))
    ensures r.Ok? && Plain(Pins(prefix, routed)) ==> OneEach(c.entries)
    ensures NeverLost(c.history, |old(c.history)|, old(c.entries), Pins(prefix, routed))
    ensures UpToSlash(prefix) != "" ==> c.Fared(old(c.trouble), r)
    ensures UpToSlash(prefix) == "" ==> r == Err(Failed) && c.trouble == old(c.trouble)
    ensures UpToSlash(prefix) == "" ==> c.entries == old(c.entries)
  {
    hide NeverLost, Covered, OneEach, Apart;
    var address := UpToSlash(prefix);
    NothingLost(c.history, c.entries, Pins(prefix, routed));
    if address == "" {
      return Err(Failed);
    }
    var made, entries;
    made, entries, r := c.Read();
    if !r.Ok? {
      return r;
    }
    ghost var h := c.history;
    if !made {
      r := c.Make();
      NotLostYet(h, c.entries, |h|, old(c.entries), Pins(prefix, routed));
      if !r.Ok? {
        return r;
      }
    }
    var wanted := [address, GLOBAL_IPV6] + if routed != "" then [routed] else [];
    var missing;
    missing, r := DropStrangers(c, wanted, |old(c.history)|, old(c.entries));
    if !r.Ok? {
      return r;
    }
    r := AddMissing(c, wanted, missing, |old(c.history)|, old(c.entries));
  }

  /** No two of them stand for the same. */
  ghost predicate OneEach(entries: set<string>) {
    forall e, e' :: e in entries && e' in entries && Trim(e) == Trim(e') ==> e == e'
  }

  /** What is wanted is written without a length of 32, and nothing twice. */
  ghost predicate Plain(wanted: seq<string>) {
    && (forall w :: w in wanted ==> Trim(w) == w)
    && forall j, k :: 0 <= j < k < |wanted| ==> wanted[j] != wanted[k]
  }

  /** What is still missing is missing: no entry stands for it, and the entries differ. */
  ghost predicate Apart(entries: set<string>, missing: seq<string>) {
    && OneEach(entries) && (forall e :: e in entries ==> Trim(e) !in missing)
    && forall j, k :: 0 <= j < k < |missing| ==> missing[j] != missing[k]
  }

  lemma ApartOnce(entries: set<string>, missing: seq<string>)
    requires Apart(entries, missing)
    ensures OneEach(entries)
  {
  }

  lemma TickedApart(kept: set<string>, entry: string, missing: seq<string>, k: nat)
    requires k < |missing| && missing[k] == Trim(entry) && Apart(kept, missing)
    ensures Apart(kept + {entry}, WithoutAt(missing, k))
  {
  }

  lemma AddedApart(entries: set<string>, missing: seq<string>, wanted: seq<string>)
    requires Plain(wanted) && missing != [] && missing[0] in wanted && Apart(entries, missing)
    ensures Apart(entries + {missing[0]}, missing[1..])
  {
  }

  lemma NothingLost(h: seq<set<string>>, before: set<string>, wanted: seq<string>)
    ensures NeverLost(h, |h|, before, wanted)
  {
  }

  /** Putting in what was not there. */
  method AddMissing(
    c: AddressSet, wanted: seq<string>, missing: seq<string>, ghost since: nat, ghost before: set<string>)
    returns (r: Outcome)
    requires c.made && Recognized(c.entries, wanted, missing)
    requires NeverLost(c.history, since, before, wanted) && StillCovered(before, c.entries, wanted)
    modifies c
    ensures r.Ok? ==> c.made && Pinned(c.entries, wanted)
    ensures r.Ok? && Plain(wanted) ==> OneEach(c.entries)
    ensures NeverLost(c.history, since, before, wanted)
    ensures c.Fared(old(c.trouble), r)
  {
    hide NeverLost, Apart, OneEach, Plain, StillCovered, Trim;
    assert missing[0..] == missing;
    var n := 0;
    while n < |missing|
      invariant n <= |missing| && c.made && c.trouble == old(c.trouble)
      invariant forall e :: e in c.entries ==> Belongs(wanted, e)
      invariant forall w :: w in wanted ==> w in missing[n..] || Covered(c.entries, w)
      invariant Plain(wanted) ==> Apart(c.entries, missing[n..])
      invariant NeverLost(c.history, since, before, wanted) && StillCovered(before, c.entries, wanted)
    {
      ghost var entries, h := c.entries, c.history;
      r := c.Change(c.entries + {missing[n]});
      assert missing[n..][1..] == missing[n + 1..];
      if Plain(wanted) {
        AddedApart(entries, missing[n..], wanted);
      }
      MoreCovered(before, entries, c.entries, wanted);
      NotLost(h, c.entries, since, before, wanted);
      if !r.Ok? {
        return r;
      }
      forall w | w in wanted ensures w in missing[n + 1..] || Covered(c.entries, w) {
        if w in missing[n..] {
          assert missing[n..] == [missing[n]] + missing[n + 1..];
        } else {
          assert Covered(entries, w);
        }
      }
      n := n + 1;
    }
    assert missing[n..] == [];
    if Plain(wanted) {
      ApartOnce(c.entries, []);
    }
    return Ok;
  }

  /** What was covered and is wanted is covered by these. */
  ghost predicate StillCovered(before: set<string>, entries: set<string>, wanted: seq<string>) {
    forall w | w in wanted && Trim(w) == w && Covered(before, w) :: Covered(entries, w)
  }

  lemma MoreCovered(before: set<string>, entries: set<string>, entries': set<string>, wanted: seq<string>)
    requires StillCovered(before, entries, wanted) && entries <= entries'
    ensures StillCovered(before, entries', wanted)
  {
    forall w | w in wanted && Trim(w) == w && Covered(before, w) ensures Covered(entries', w) {
      assert Covered(entries, w);
    }
  }

  /** These entries are recognized, each as a wanted one, and all but the missing ones are covered. */
  ghost predicate Recognized(kept: set<string>, wanted: seq<string>, missing: seq<string>) {
    && (forall e :: e in kept ==> Trim(e) in wanted)
    && (forall w :: w in missing ==> w in wanted)
    && (forall w :: w in wanted ==> w in missing || Covered(kept, w))
    && (Plain(wanted) ==> Apart(kept, missing))
  }

  lemma NoneRecognized(wanted: seq<string>)
    ensures Recognized({}, wanted, wanted)
  {
  }

  lemma Ticked(kept: set<string>, entry: string, wanted: seq<string>, missing: seq<string>, k: nat)
    requires k < |missing| && missing[k] == Trim(entry) && Recognized(kept, wanted, missing)
    ensures Recognized(kept + {entry}, wanted, WithoutAt(missing, k))
  {
    hide Plain, Apart;
    if Plain(wanted) {
      TickedApart(kept, entry, missing, k);
    }
    forall w | w in wanted ensures w in WithoutAt(missing, k) || Covered(kept + {entry}, w) {
      if w in missing && w != missing[k] {
        OthersRemain(missing, k, w);
      } else if w !in missing {
        assert Covered(kept, w);
      }
    }
  }

  /** An entry can go if it is not recognized as one still missing. */
  lemma CanGo(
    before: set<string>, kept: set<string>, rest: set<string>, entry: string, wanted: seq<string>,
    missing: seq<string>)
    requires StillCovered(before, kept + rest + {entry}, wanted) && Trim(entry) !in missing
    requires Recognized(kept, wanted, missing)
    ensures StillCovered(before, kept + rest, wanted)
  {
    hide Plain, Apart;
    forall w | w in wanted && Trim(w) == w && Covered(before, w) ensures Covered(kept + rest, w) {
      assert Covered(kept + rest + {entry}, w);
      if w !in missing {
        assert Covered(kept, w);
      }
    }
  }

  /** Going through what the set has: an entry that is recognized as a wanted one is ticked
      off, once, and any other taken out. */
  method DropStrangers(c: AddressSet, wanted: seq<string>, ghost since: nat, ghost before: set<string>)
    returns (missing: seq<string>, r: Outcome)
    requires c.made && NeverLost(c.history, since, before, wanted) && c.entries == before
    modifies c
    ensures r.Ok? ==> c.made && c.entries <= old(c.entries) && Recognized(c.entries, wanted, missing)
    ensures NeverLost(c.history, since, before, wanted)
    ensures r.Ok? ==> StillCovered(before, c.entries, wanted)
    ensures c.Fared(old(c.trouble), r)
  {
    hide NeverLost, StillCovered, Recognized, WithoutAt, Trim;
    missing := wanted;
    var made, rest;
    made, rest, r := c.Read();
    if !r.Ok? {
      return missing, r;
    }
    ghost var kept: set<string> := {};
    NoneRecognized(wanted);
    AllCovered(before, wanted);
    assert kept + rest == before;
    while rest != {}
      invariant c.made && c.entries == kept + rest <= old(c.entries) && kept !! rest && c.trouble == old(c.trouble)
      invariant Recognized(kept, wanted, missing)
      invariant NeverLost(c.history, since, before, wanted) && StillCovered(before, kept + rest, wanted)
      decreases |rest|
    {
      var entry :| entry in rest;
      rest := rest - {entry};
      var k := IndexOf(missing, Trim(entry));
      if k < |missing| {
        Ticked(kept, entry, wanted, missing, k);
        assert kept + {entry} + rest == c.entries;
        kept := kept + {entry};
        missing := WithoutAt(missing, k);
      } else {
        ghost var h := c.history;
        assert kept + rest + {entry} == c.entries && c.entries - {entry} == kept + rest;
        CanGo(before, kept, rest, entry, wanted, missing);
        r := c.Change(c.entries - {entry});
        NotLost(h, c.entries, since, before, wanted);
        if !r.Ok? {
          return missing, r;
        }
      }
    }
    assert c.entries == kept == kept + rest;
    return missing, Ok;
  }

  lemma AllCovered(before: set<string>, wanted: seq<string>)
    ensures StillCovered(before, before, wanted)
  {
  }

  lemma NotLost(h: seq<set<string>>, entries: set<string>, since: nat, before: set<string>, wanted: seq<string>)
    requires NeverLost(h, since, before, wanted) && StillCovered(before, entries, wanted)
    ensures NeverLost(h + [entries], since, before, wanted)
  {
    hide NeverLost;
    NotLostYet(h, entries, since, before, wanted);
  }

  lemma OthersRemain(s: seq<string>, k: nat, w: string)
    requires k < |s| && w in s && w != s[k]
    ensures w in WithoutAt(s, k)
  {
    var j :| 0 <= j < |s| && s[j] == w;
    if j < k {
      assert WithoutAt(s, k)[j] == w;
    } else {
      assert WithoutAt(s, k)[j - 1] == w;
    }
  }

  /** A guest may send from an address if it lies in the block some entry stands for. */
  ghost predicate MaySendFrom(entries: set<string>, blockOf: string -> Option<Prefix>, v6: bool, address: nat) {
    exists e :: e in entries && InBlock(blockOf(e), v6, address)
  }

  predicate InBlock(block: Option<Prefix>, v6: bool, address: nat) {
    block.Some? && Contains(block.value, v6, address)
  }

  /** The addresses a guest may send from are those of the wanted blocks and no others,
      if an address stands for the same block whether its length of 32 is written or not. */
  lemma PinnedAdmits(
    entries: set<string>, wanted: seq<string>, blockOf: string -> Option<Prefix>, v6: bool, address: nat)
    requires Pinned(entries, wanted)
    requires forall e :: e in entries && Trim(e) in wanted ==> blockOf(Trim(e)) == blockOf(e)
    ensures MaySendFrom(entries, blockOf, v6, address) <==>
              exists w :: w in wanted && InBlock(blockOf(w), v6, address)
  {
    if e :| e in entries && InBlock(blockOf(e), v6, address) {
      assert Belongs(wanted, e);
    }
    if w :| w in wanted && InBlock(blockOf(w), v6, address) {
      assert Covered(entries, w);
    }
  }
}
