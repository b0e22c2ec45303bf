/** The ledger Ansible reads: which virtual machines NetBox lists, and the calls
    that change it. */
module LedgerBook {
  import opened Types
  import opened Backends

  const TAG := "shakecloud"

  datatype Entry = Entry(
    name: string, status: string, description: string, vcpus: nat, memory: nat,
    tags: seq<string>, primary: Option<AddressId>)
  datatype Interface = Interface(vm: nat, name: string)

  /** The whole ledger; `writes` counts the calls that changed it. */
  datatype Book = Book(
    vms: map<nat, Entry>,
    interfaces: map<nat, Interface>,
    attached: map<AddressId, nat>,
    dns: map<AddressId, string>,
    writes: nat)

  predicate Tagged(e: Entry) { TAG in e.tags }

  /** NetBox does not list two of the cloud's machines under one name. */
  ghost predicate UniqueNames(vms: map<nat, Entry>) {
    forall a, b | a in vms && b in vms && Tagged(vms[a]) && Tagged(vms[b]) :: vms[a].name == vms[b].name ==> a == b
  }

  /** The address hangs from an interface of this name of the machine. */
  predicate HangsFrom(b: Book, ip: AddressId, vm: nat, name: string) {
    ip in b.attached && b.attached[ip] in b.interfaces && b.interfaces[b.attached[ip]] == Interface(vm, name)
  }

  /** Every address but these still hangs where it did. */
  ghost predicate OnlyMoved(attached: map<AddressId, nat>, attached': map<AddressId, nat>, ips: set<AddressId>) {
    forall ip :: ip !in ips && ip in attached ==> ip in attached' && attached'[ip] == attached[ip]
  }

  class NetBox {
    /** The number of the cluster new machines go into. */
    const cluster: nat

    var vms: map<nat, Entry>
    var interfaces: map<nat, Interface>
    var attached: map<AddressId, nat>
    var dns: map<AddressId, string>
    var writes: nat

    /** How many calls have failed so far, or lost their reply. */
    ghost var trouble: nat

    /** No call has failed since, or the last one has. */
    ghost predicate Fared(before: nat, r: Outcome)
      reads this`trouble
    {
      if r.Ok? then trouble == before else CallFailed(r) && trouble == before + 1
    }

    function Now(): Book
      reads this
    {
      Book(vms, interfaces, attached, dns, writes)
    }

    constructor (cluster: nat, vms: map<nat, Entry>, dns: map<AddressId, string>)
      ensures this.cluster == cluster && Now() == Book(vms, map[], map[], dns, 0)
    {
      this.cluster := cluster;
      this.vms, this.interfaces, this.attached, this.dns, this.writes := vms, map[], map[], dns, 0;
      trouble := 0;
    }

    /** The cloud's machines as they are now. */
    method VMsByTag() returns (found: map<nat, Entry>, r: Outcome)
      modifies this`trouble
      ensures r.Ok? ==> found == map a | a in vms && Tagged(vms[a]) :: vms[a]
      ensures Fared(old(trouble), r)
    {
      var fails: bool := *;
      found := map[];
      r := Failure();
      if !fails {
        found := map a | a in vms && Tagged(vms[a]) :: vms[a];
        r := Ok;
      }
      trouble := trouble + if r.Ok? then 0 else 1;
    }

    method CreateVM(into: nat, e: Entry) returns (id: nat, r: Outcome)
      requires into == cluster
      modifies this
      ensures Now() == old(Now())
              || (id !in old(vms) && Now() == old(Now()).(vms := old(vms)[id := e], writes := old(writes) + 1))
      ensures r.Ok? ==> id !in old(vms) && Now() == old(Now()).(vms := old(vms)[id := e], writes := old(writes) + 1)
      ensures Fared(old(trouble), r)
    {
      var fails, lost: bool := *, *;
      id := 0;
      r := Failure();
      if !fails {
        SomeNatOutside(vms.Keys);
        id :| id !in vms.Keys;
        vms, writes := vms[id := e], writes + 1;
        if !lost {
          r := Ok;
        }
      }
      trouble := trouble + if r.Ok? then 0 else 1;
    }

    method UpdateVM(id: nat, e: Entry) returns (r: Outcome)
      modifies this
      ensures Now() == old(Now()) || Now() == old(Now()).(vms := old(vms)[id := e], writes := old(writes) + 1)
      ensures r.Ok? ==> Now() == old(Now()).(vms := old(vms)[id := e], writes := old(writes) + 1)
      ensures Fared(old(trouble), r)
    {
      var fails, lost: bool := *, *;
      r := Failure();
      if !fails {
        vms, writes := vms[id := e], writes + 1;
        if !lost {
          r := Ok;
        }
      }
      trouble := trouble + if r.Ok? then 0 else 1;
    }

    /** Deleting a machine that is gone already is no error. */
    method DeleteVM(id: nat) returns (r: Outcome)
      modifies this
      ensures Now() == old(Now()) || Now() == old(Now()).(vms := old(vms) - {id}, writes := old(writes) + 1)
      ensures r.Ok? ==> Now() == old(Now()).(vms := old(vms) - {id}, writes := old(writes) + 1)
      ensures Fared(old(trouble), r)
    {
      var fails, lost: bool := *, *;
      r := Failure();
      if !fails {
        vms, writes := vms - {id}, writes + 1;
        if !lost {
          r := Ok;
        }
      }
      trouble := trouble + if r.Ok? then 0 else 1;
    }

    method EnsureVMInterface(vm: nat, name: string) returns (nic: nat, r: Outcome)
      modifies this
      ensures vms == old(vms) && dns == old(dns) && attached == old(attached)
      ensures forall k :: k in old(interfaces) ==> k in interfaces && interfaces[k] == old(interfaces)[k]
      ensures r.Ok? ==> nic in interfaces && interfaces[nic] == Interface(vm, name)
      ensures Fared(old(trouble), r)
    {
      var fails, lost: bool := *, *;
      nic := 0;
      r := Failure();
      if !fails {
        if k :| k in interfaces && interfaces[k] == Interface(vm, name) {
          return k, Ok;
        }
        SomeNatOutside(interfaces.Keys);
        nic :| nic !in interfaces.Keys;
        interfaces, writes := interfaces[nic := Interface(vm, name)], writes + 1;
        if !lost {
          r := Ok;
        }
      }
      trouble := trouble + if r.Ok? then 0 else 1;
    }

    method AssignIP(ip: AddressId, nic: nat) returns (r: Outcome)
      modifies this
      ensures vms == old(vms) && dns == old(dns) && interfaces == old(interfaces)
      ensures attached == old(attached) || attached == old(attached)[ip := nic]
      ensures r.Ok? ==> attached == old(attached)[ip := nic]
      ensures Fared(old(trouble), r)
    {
      var fails, lost: bool := *, *;
      r := Failure();
      if !fails {
        attached, writes := attached[ip := nic], writes + 1;
        if !lost {
          r := Ok;
        }
      }
      trouble := trouble + if r.Ok? then 0 else 1;
    }

    method SetPrimaryIP(id: nat, ip: AddressId) returns (r: Outcome)
      requires id in vms
      modifies this
      ensures dns == old(dns) && interfaces == old(interfaces) && attached == old(attached)
      ensures vms == old(vms) || vms == old(vms)[id := old(vms)[id].(primary := Some(ip))]
      ensures r.Ok? ==> vms == old(vms)[id := old(vms)[id].(primary := Some(ip))]
      ensures Fared(old(trouble), r)
    {
      var fails, lost: bool := *, *;
      r := Failure();
      if !fails {
        vms, writes := vms[id := vms[id].(primary := Some(ip))], writes + 1;
        if !lost {
          r := Ok;
        }
      }
      trouble := trouble + if r.Ok? then 0 else 1;
    }

    /** Looking that cluster up. */
    method ClusterID() returns (id: nat, r: Outcome)
      modifies this`trouble
      ensures r.Ok? ==> id == cluster
      ensures Fared(old(trouble), r)
    {
      var fails: bool := *;
      id, r := cluster, Ok;
      if fails {
        r := Failure();
        trouble := trouble + 1;
      }
    }

    /** The DNS names of the cloud's addresses. */
    method IPAddressesByTag() returns (found: map<AddressId, string>, r: Outcome)
      modifies this`trouble
      ensures r.Ok? ==> found == dns
      ensures Fared(old(trouble), r)
    {
      var fails: bool := *;
      found := map[];
      r := Failure();
      if !fails {
        found := dns;
        r := Ok;
      }
      trouble := trouble + if r.Ok? then 0 else 1;
    }

    method SetDNSName(ip: AddressId, name: string) returns (r: Outcome)
      modifies this
      ensures Now() == old(Now()) || Now() == old(Now()).(dns := old(dns)[ip := name], writes := old(writes) + 1)
      ensures r.Ok? ==> Now() == old(Now()).(dns := old(dns)[ip := name], writes := old(writes) + 1)
      ensures Fared(old(trouble), r)
    {
      var fails, lost: bool := *, *;
      r := Failure();
      if !fails {
        dns, writes := dns[ip := name], writes + 1;
        if !lost {
          r := Ok;
        }
      }
      trouble := trouble + if r.Ok? then 0 else 1;
    }
  }
}
