/** Security group rules, the VM firewall rules they are rendered into, and what
    traffic each of them lets through. */
module FirewallRules {
  import opened Types

  type GroupId = nat
  type RuleId = nat
  type Port = n: int | 0 <= n < 65536

  datatype Direction = Ingress | Egress
  datatype Protocol = Tcp | Udp | Icmp | Icmpv6 | All

  /** An address block; `bits` leading bits are given and the rest are zero. */
  datatype Prefix = Prefix(v6: bool, address: nat, bits: nat)

  datatype GroupRule = GroupRule(
    id: RuleId, group: GroupId, direction: Direction, protocol: Protocol,
    fromPort: Option<int>, toPort: Option<int>, cidr: Prefix)

  datatype Way = In | Out
  datatype Verdict = Accept | Drop
  datatype Comment = Uncommented | Ours(group: GroupId, rule: RuleId) | Words(text: string)

  /** A rule as Proxmox stores it: protocol and ports are text, absent fields are empty. */
  datatype VmRule = VmRule(
    way: Way, action: Verdict, enable: bool, proto: string, dport: string,
    source: Option<Prefix>, dest: Option<Prefix>, comment: Comment)

  // ------------------------------------------------------------- decimal text

  function Digit(d: nat): char
    requires d < 10
  {
    ['0', '1', '2', '3', '4', '5', '6', '7', '8', '9'][d]
  }

  function DigitValue(c: char): nat {
    if '0' <= c <= '9' then (c - '0') as nat else 0
  }

  function Itoa(n: nat): string {
    if n < 10 then [Digit(n)] else Itoa(n / 10) + [Digit(n % 10)]
  }

  function Atoi(s: string): nat {
    if s == [] then 0 else Atoi(s[..|s| - 1]) * 10 + DigitValue(s[|s| - 1])
  }

  lemma {:induction false} TextOfNumber(n: nat)
    ensures Atoi(Itoa(n)) == n && |Itoa(n)| > 0 && ':' !in Itoa(n)
  {
    if n >= 10 {
      TextOfNumber(n / 10);
      var s := Itoa(n);
      assert s[..|s| - 1] == Itoa(n / 10);
    }
  }

  function ColonAt(s: string): (k: nat)
    ensures k <= |s| && ':' !in s[..k] && (k < |s| ==> s[k] == ':')
  {
    if s == [] then 0
    else
      var k := ColonAt(s[..|s| - 1]);
      if k < |s| - 1 || s[|s| - 1] == ':' then k else |s|
  }

  /** What a port text lets through: nothing written means every port, "a" one, "a:b" a range. */
  predicate PortAllowed(dport: string, port: Port) {
    if dport == "" then true
    else
      var k := ColonAt(dport);
      if k == |dport| then port == Atoi(dport)
      else Atoi(dport[..k]) <= port <= Atoi(dport[k + 1..])
  }

  /** The text the renderer writes for a port range. */
  function PortText(from: nat, to: nat): string {
    if from == 0 && to == 65535 then ""
    else if to == from then Itoa(from)
    else Itoa(from) + ":" + Itoa(to)
  }

  /** Written out and read back, a port range lets through exactly its own ports. */
  lemma PortTextMeaning(from: nat, to: nat, port: Port)
    requires from <= to <= 65535
    ensures PortAllowed(PortText(from, to), port) <==> from <= port <= to
  {
    TextOfNumber(from);
    TextOfNumber(to);
    var s := PortText(from, to);
    if s != "" {
      var k := ColonAt(s);
      if to == from {
        assert k == |s|;
      } else {
        assert s[|Itoa(from)|] == ':';
        assert s[..|Itoa(from)|] == Itoa(from);
        assert k == |Itoa(from)|;
        assert s[k + 1..] == Itoa(to);
      }
    }
  }

  // ------------------------------------------------------------------ packets

  /** One packet of an instance: which way it goes, the other end's address, and
      the destination port where the protocol has one. */
  datatype Packet = Packet(way: Way, kind: Kind, v6: bool, remote: nat)

  datatype Kind = TcpTo(port: Port) | UdpTo(port: Port) | IcmpKind | Icmpv6Kind | OtherKind(number: nat)

  function Power(n: nat): (p: nat)
    ensures p > 0
  {
    if n == 0 then 1 else 2 * Power(n - 1)
  }

  function Width(v6: bool): nat { if v6 then 128 else 32 }

  /** The addresses a block's given bits leave open. */
  function Span(p: Prefix): (s: nat)
    ensures s > 0
  {
    if p.bits <= Width(p.v6) then Power(Width(p.v6) - p.bits) else 1
  }

  predicate Contains(p: Prefix, v6: bool, address: nat) {
    p.v6 == v6 && address / Span(p) == p.address / Span(p)
  }

  /** What a user means by a group rule. */
  predicate GroupAllows(r: GroupRule, p: Packet) {
    && (r.direction.Ingress? <==> p.way.In?)
    && Contains(r.cidr, p.v6, p.remote)
    && match r.protocol
       case All => true
       case Tcp => p.kind.TcpTo? && r.fromPort.Some? && r.toPort.Some?
           && r.fromPort.value <= p.kind.port <= r.toPort.value
       case Udp => p.kind.UdpTo? && r.fromPort.Some? && r.toPort.Some?
           && r.fromPort.value <= p.kind.port <= r.toPort.value
       case Icmp => p.kind.IcmpKind?
       case Icmpv6 => p.kind.Icmpv6Kind?
  }

  /** What the hypervisor makes of a VM rule. */
  predicate Matches(r: VmRule, p: Packet) {
    && r.enable && r.way == p.way
    && (r.source.Some? ==> p.way.In? && Contains(r.source.value, p.v6, p.remote))
    && (r.dest.Some? ==> p.way.Out? && Contains(r.dest.value, p.v6, p.remote))
    && (r.proto == "" || r.proto == ProtocolText(p.kind))
    && (r.dport == "" || ((p.kind.TcpTo? || p.kind.UdpTo?) && PortAllowed(r.dport, p.kind.port)))
  }

  function ProtocolText(k: Kind): string {
    match k
    case TcpTo(_) => "tcp"
    case UdpTo(_) => "udp"
    case IcmpKind => "icmp"
    case Icmpv6Kind => "ipv6-icmp"
    case OtherKind(_) => "other"
  }

  /** The first rule that matches decides; what no rule matches is dropped. */
  predicate Passes(list: seq<VmRule>, p: Packet) {
    if list == [] then false
    else if Matches(list[0], p) then list[0].action.Accept?
    else Passes(list[1..], p)
  }

  // ---------------------------------------------------------------- rendering

  predicate PortsInOrder(from: Option<int>, to: Option<int>) {
    from.Some? && to.Some? && 0 <= from.value <= to.value <= 65535
  }

  /** A rule `validateRules` lets through. */
  predicate Validated(r: GroupRule) {
    match r.protocol
    case Tcp => PortsInOrder(r.fromPort, r.toPort)
    case Udp => PortsInOrder(r.fromPort, r.toPort)
    case _ => r.fromPort.None? && r.toPort.None?
  }

  /** One group rule as a VM rule, its comment left out. */
  function Bare(r: GroupRule): VmRule
    requires Validated(r)
  {
    VmRule(
      if r.direction.Ingress? then In else Out, Accept, true,
      match r.protocol
      case Tcp => "tcp"
      case Udp => "udp"
      case Icmp => "icmp"
      case Icmpv6 => "ipv6-icmp"
      case All => "",
      if r.protocol.Tcp? || r.protocol.Udp? then PortText(r.fromPort.value, r.toPort.value) else "",
      if r.direction.Ingress? then Some(r.cidr) else None,
      if r.direction.Ingress? then None else Some(r.cidr),
      Uncommented)
  }

  function Signed(r: GroupRule): VmRule
    requires Validated(r)
  {
    Bare(r).(comment := Ours(r.group, r.id))
  }

  ghost predicate AllValidated(rules: seq<GroupRule>) {
    forall k :: 0 <= k < |rules| ==> Validated(rules[k])
  }

  /** A rule that renders like an earlier one is left out. */
  ghost function Rendered(rules: seq<GroupRule>): seq<VmRule>
    requires AllValidated(rules)
  {
    if rules == [] then []
    else
      var n := |rules| - 1;
      var before := Rendered(rules[..n]);
      if exists j :: 0 <= j < n && Bare(rules[j]) == Bare(rules[n]) then before else before + [Signed(rules[n])]
  }

  method RenderFirewall(rules: seq<GroupRule>) returns (out: seq<VmRule>)
    requires AllValidated(rules)
    ensures out == Rendered(rules)
  {
    hide Bare;
    out := [];
    var seen: set<VmRule> := {};
    for k := 0 to |rules|
      invariant out == Rendered(rules[..k])
      invariant forall b :: b in seen <==> exists j :: 0 <= j < k && Bare(rules[j]) == b
    {
      assert rules[..k + 1][..k] == rules[..k];
      var rule := RenderRule(rules[k]);
      if rule !in seen {
        seen := seen + {rule};
        out := out + [rule.(comment := Ours(rules[k].group, rules[k].id))];
      }
    }
    assert rules[..|rules|] == rules;
  }

  /** The body of the loop that fills one rule in. */
  method RenderRule(r: GroupRule) returns (rule: VmRule)
    requires Validated(r)
    ensures rule == Bare(r)
  {
    rule := VmRule(In, Accept, true, "", "", None, None, Uncommented);
    if r.direction.Ingress? {
      rule := rule.(way := In, source := Some(r.cidr));
    } else {
      rule := rule.(way := Out, dest := Some(r.cidr));
    }
    match r.protocol {
      case Tcp => rule := rule.(proto := "tcp", dport := PortText(r.fromPort.value, r.toPort.value));
      case Udp => rule := rule.(proto := "udp", dport := PortText(r.fromPort.value, r.toPort.value));
      case Icmp => rule := rule.(proto := "icmp");
      case Icmpv6 => rule := rule.(proto := "ipv6-icmp");
      case All =>
    }
  }

  // --------------------------------------------- what rendering keeps and drops

  /** A rendered rule matches exactly the packets its group rule allows. */
  lemma BareMeaning(r: GroupRule, p: Packet)
    requires Validated(r)
    ensures Matches(Bare(r), p) <==> GroupAllows(r, p)
    ensures Matches(Signed(r), p) <==> GroupAllows(r, p)
  {
    if (r.protocol.Tcp? || r.protocol.Udp?) && (p.kind.TcpTo? || p.kind.UdpTo?) {
      PortTextMeaning(r.fromPort.value, r.toPort.value, p.kind.port);
    }
  }

  ghost predicate SomeRuleAllows(rules: seq<GroupRule>, p: Packet) {
    exists k :: 0 <= k < |rules| && GroupAllows(rules[k], p)
  }

  predicate AcceptOnly(list: seq<VmRule>) {
    forall k :: 0 <= k < |list| ==> list[k].action.Accept?
  }

  lemma {:induction false} AcceptOnlyPasses(list: seq<VmRule>, p: Packet)
    requires AcceptOnly(list)
    ensures Passes(list, p) <==> exists k :: 0 <= k < |list| && Matches(list[k], p)
  {
    if list != [] {
      AcceptOnlyPasses(list[1..], p);
      if exists k :: 0 <= k < |list| && Matches(list[k], p) {
        var k :| 0 <= k < |list| && Matches(list[k], p);
        assert k > 0 ==> Matches(list[1..][k - 1], p);
      }
    }
  }

  lemma PassesAfter(list: seq<VmRule>, last: VmRule, p: Packet)
    requires AcceptOnly(list) && last.action.Accept?
    ensures Passes(list + [last], p) <==> Passes(list, p) || Matches(last, p)
  {
    AcceptOnlyPasses(list, p);
    AcceptOnlyPasses(list + [last], p);
    assert (list + [last])[|list|] == last;
    if Passes(list, p) {
      var k :| 0 <= k < |list| && Matches(list[k], p);
      assert Matches((list + [last])[k], p);
    }
  }

  /** A packet passes the rendered firewall exactly if some rule of the groups allows it. */
  lemma {:induction false} RenderingKeepsMeaning(rules: seq<GroupRule>, p: Packet)
    requires AllValidated(rules)
    ensures AcceptOnly(Rendered(rules))
    ensures Passes(Rendered(rules), p) <==> SomeRuleAllows(rules, p)
  {
    if rules != [] {
      var n := |rules| - 1;
      RenderingKeepsMeaning(rules[..n], p);
      BareMeaning(rules[n], p);
      PassesAfter(Rendered(rules[..n]), Signed(rules[n]), p);
      AllowedByLast(rules, p);
      if exists j :: 0 <= j < n && Bare(rules[j]) == Bare(rules[n]) {
        var j :| 0 <= j < n && Bare(rules[j]) == Bare(rules[n]);
        BareMeaning(rules[j], p);
        assert rules[..n][j] == rules[j];
      }
    }
  }

  lemma AllowedByLast(rules: seq<GroupRule>, p: Packet)
    requires rules != []
    ensures SomeRuleAllows(rules, p) <==> SomeRuleAllows(rules[..|rules| - 1], p) || GroupAllows(rules[|rules| - 1], p)
  {
    var n := |rules| - 1;
    if SomeRuleAllows(rules[..n], p) {
      var k :| 0 <= k < n && GroupAllows(rules[..n][k], p);
      assert GroupAllows(rules[k], p);
    }
    if SomeRuleAllows(rules, p) && !GroupAllows(rules[n], p) {
      var k :| 0 <= k < |rules| && GroupAllows(rules[k], p);
      assert GroupAllows(rules[..n][k], p);
    }
  }

  /** Where each rendered rule comes from. */
  ghost function Origins(rules: seq<GroupRule>): seq<nat>
    requires AllValidated(rules)
  {
    if rules == [] then []
    else
      var n := |rules| - 1;
      var before := Origins(rules[..n]);
      if exists j :: 0 <= j < n && Bare(rules[j]) == Bare(rules[n]) then before else before + [n]
  }

  ghost predicate FirstOfItsKind(rules: seq<GroupRule>, k: nat)
    requires AllValidated(rules) && k < |rules|
  {
    forall j :: 0 <= j < k ==> Bare(rules[j]) != Bare(rules[k])
  }

  /** The rendered rules are the first of each kind, in the order the groups have them,
      so no two of them say the same and none is missing. */
  lemma {:induction false} RenderingKeepsOrder(rules: seq<GroupRule>)
    requires AllValidated(rules)
    ensures var o, out := Origins(rules), Rendered(rules);
            && |o| == |out|
            && (forall k :: 0 <= k < |o| ==>
                 o[k] < |rules| && out[k] == Signed(rules[o[k]]) && FirstOfItsKind(rules, o[k]))
            && (forall k, m :: 0 <= k < m < |o| ==> o[k] < o[m] && Bare(rules[o[k]]) != Bare(rules[o[m]]))
            && (forall j :: 0 <= j < |rules| && FirstOfItsKind(rules, j) ==> j in o)
  {
    hide Bare, Validated;
    if rules != [] {
      var n := |rules| - 1;
      RenderingKeepsOrder(rules[..n]);
      var before, o := Origins(rules[..n]), Origins(rules);
      forall k | 0 <= k < |before| ensures FirstOfItsKind(rules, before[k]) {
        assert rules[..n][before[k]] == rules[before[k]];
        assert forall j :: 0 <= j < before[k] ==> rules[..n][j] == rules[j];
      }
      forall j | 0 <= j < |rules| && FirstOfItsKind(rules, j) ensures j in o {
        if j < n {
          assert FirstOfItsKind(rules[..n], j);
        } else {
          assert o == before + [n];
        }
      }
    }
  }
}
