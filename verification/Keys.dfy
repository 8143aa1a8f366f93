/** The one canonical identity layer of provider/plan.go: cloud rules that were read back and rules
    to be written are compared only through the keys built here. */
module Keys {
  import opened Text
  import opened Tag

  datatype Family = IPv4 | IPv6

  datatype Key = Key(family: Family, cidr: string, protocol: string, port: string, action: string)

  /** An address field of a rule as `net/netip` sees it: blank, not an address, or the canonical
      prefix of the family the text really has. */
  datatype Address = Blank | Malformed(text: string) | Block(family: Family, cidr: string)

  /** A rule as a snapshot reports it. */
  datatype RuleInfo = RuleInfo(protocol: string, port: string, cidrBlock: Address, ipv6CidrBlock: Address,
                               action: string, description: string, policyIndex: string, ruleID: string)

  /** A rule to be written; its port is already in wire form. */
  datatype RuleAction = RuleAction(protocol: string, port: string, cidrBlock: Address, ipv6CidrBlock: Address,
                                   action: string, description: string)

  function FamilyName(f: Family): string {
    match f case IPv4 => "ipv4" case IPv6 => "ipv6"
  }

  function KeyString(k: Key): string {
    FamilyName(k.family) + "|" + (k.cidr + "|" + (k.protocol + "|" + (k.port + ("|" + k.action))))
  }

  predicate KeyLe(a: Key, b: Key) { StringLe(KeyString(a), KeyString(b)) }

  function CanonicalProtocol(protocol: string): string {
    var p := Upper(Trim(protocol));
    if p == "ICMPV6" then "ICMP" else p
  }

  /** The canonical form of one port item; `protocol` is already canonical. */
  function CanonicalPort(protocol: string, port: string): string {
    if protocol == "ICMP" || protocol == "ALL" then "ALL"
    else
      var p := Upper(Trim(port));
      if p == "" || p == "ALL" || p == "-1/-1" || p == "-1" then "ALL"
      else
        var i := IndexOf(p, '/');
        if i == |p| then p
        else if p[..i] == p[i + 1..] then p[..i]
        else p[..i] + "-" + p[i + 1..]
  }

  /** Exactly one of the two fields may be filled, and with an address of its own family. */
  function RuleAddress(cidrBlock: Address, ipv6CidrBlock: Address): Option<(Family, string)> {
    if cidrBlock.Blank? == ipv6CidrBlock.Blank? then None
    else if !ipv6CidrBlock.Blank? then
      (if ipv6CidrBlock.Block? && ipv6CidrBlock.family == IPv6 then Some((IPv6, ipv6CidrBlock.cidr)) else None)
    else if cidrBlock.Block? && cidrBlock.family == IPv4 then Some((IPv4, cidrBlock.cidr))
    else None
  }

  /** Appends the trimmed, non-empty, not yet seen parts. */
  function DistinctParts(parts: seq<string>): (out: seq<string>)
    ensures forall p :: p in out <==> p != "" && exists q :: q in parts && p == Trim(q)
  {
    if parts == [] then []
    else
      var last := parts[|parts| - 1];
      var rest := DistinctParts(parts[..|parts| - 1]);
      var t := Trim(last);
      assert forall q :: q in parts <==> q in parts[..|parts| - 1] || q == last;
      if t == "" || t in rest then rest else rest + [t]
  }

  function SplitPortFieldSpec(port: string): seq<string> {
    Sort(StringLe, DistinctParts(Split(port, ',')))
  }

  method SplitPortField(port: string) returns (out: seq<string>)
    ensures out == SplitPortFieldSpec(port)
  {
    var parts := Split(port, ',');
    out := [];
    var seen: set<string> := {};
    for i := 0 to |parts|
      invariant out == DistinctParts(parts[..i])
      invariant forall p :: p in seen <==> p in out
    {
      assert parts[..i + 1][..i] == parts[..i];
      var p := Trim(parts[i]);
      if p != "" && p !in seen {
        seen := seen + {p};
        out := out + [p];
      }
    }
    assert parts[..|parts|] == parts;
    out := Sort(StringLe, out);
  }

  function PortKeys(family: Family, cidr: string, protocol: string, ports: seq<string>, action: string): (keys: seq<Key>)
    ensures |keys| == |ports|
    ensures forall i :: 0 <= i < |ports| ==> keys[i] == Key(family, cidr, protocol, CanonicalPort(protocol, ports[i]), action)
  {
    seq(|ports|, i requires 0 <= i < |ports| => Key(family, cidr, protocol, CanonicalPort(protocol, ports[i]), action))
  }

  function SortedPortKeys(family: Family, cidr: string, protocol: string, ports: seq<string>, action: string): (keys: seq<Key>)
    ensures |keys| == |ports|
    ensures forall k :: k in keys <==> exists p :: p in ports && k == Key(family, cidr, protocol, CanonicalPort(protocol, p), action)
  {
    var raw := PortKeys(family, cidr, protocol, ports, action);
    var keys := Sort(KeyLe, raw);
    assert forall k :: k in keys <==> k in raw by { SortedElements(KeyLe, raw); }
    assert forall p :: p in ports ==> exists i :: 0 <= i < |ports| && ports[i] == p && raw[i].port == CanonicalPort(protocol, p);
    keys
  }

  /** The key set of a rule, or None when its fields do not allow a safe verdict. */
  function BuildKeysSpec(family: Family, cidr: string, protocol: string, portField: string, action: string): Option<seq<Key>> {
    var proto := CanonicalProtocol(protocol);
    var act := Upper(Trim(action));
    if proto == "" || (act != "ACCEPT" && act != "DROP") then None
    else
      var ports := SplitPortFieldSpec(portField);
      if ports == [] then
        (if proto == "ICMP" || proto == "ALL" then Some(SortedPortKeys(family, cidr, proto, ["ALL"], act)) else None)
      else Some(SortedPortKeys(family, cidr, proto, ports, act))
  }

  method BuildKeys(family: Family, cidr: string, protocol: string, portField: string, action: string)
    returns (result: Option<seq<Key>>)
    ensures result == BuildKeysSpec(family, cidr, protocol, portField, action)
  {
    hide CanonicalProtocol, CanonicalPort, SplitPortFieldSpec, Upper, Trim, Sort;
    var proto := CanonicalProtocol(protocol);
    if proto == "" {
      return None;
    }
    var act := Upper(Trim(action));
    if act != "ACCEPT" && act != "DROP" {
      return None;
    }
    var ports := SplitPortField(portField);
    if |ports| == 0 {
      if proto == "ICMP" || proto == "ALL" {
        ports := ["ALL"];
      } else {
        return None;
      }
    }
    var keys: seq<Key> := [];
    for i := 0 to |ports|
      invariant |keys| == i
      invariant forall j :: 0 <= j < i ==> keys[j] == Key(family, cidr, proto, CanonicalPort(proto, ports[j]), act)
    {
      keys := keys + [Key(family, cidr, proto, CanonicalPort(proto, ports[i]), act)];
    }
    assert keys == PortKeys(family, cidr, proto, ports, act);
    assert Sort(KeyLe, keys) == SortedPortKeys(family, cidr, proto, ports, act);
    return Some(Sort(KeyLe, keys));
  }

  function SnapshotRuleKeys(r: RuleInfo): Option<seq<Key>> {
    match RuleAddress(r.cidrBlock, r.ipv6CidrBlock)
    case None => None
    case Some((family, cidr)) => BuildKeysSpec(family, cidr, r.protocol, r.port, r.action)
  }

  function PlannedActionKeys(a: RuleAction): seq<Key> {
    match RuleAddress(a.cidrBlock, a.ipv6CidrBlock)
    case None => []
    case Some((family, cidr)) =>
      match BuildKeysSpec(family, cidr, a.protocol, a.port, a.action)
      case None => []
      case Some(keys) => keys
  }

  /** The keys a rule covers; none when it cannot be judged. */
  function KeysOf(r: RuleInfo): seq<Key> {
    match SnapshotRuleKeys(r) case None => [] case Some(keys) => keys
  }

  // -------------------------------------------------------------- properties

  lemma SnapshotKeysShape(r: RuleInfo)
    requires SnapshotRuleKeys(r).Some?
    ensures KeysOf(r) != []
    ensures forall k :: k in KeysOf(r) ==>
              && Some((k.family, k.cidr)) == RuleAddress(r.cidrBlock, r.ipv6CidrBlock)
              && k.protocol == CanonicalProtocol(r.protocol) && k.action == Upper(Trim(r.action))
  {
    assert |KeysOf(r)| >= 1;
  }

  /** One address field alone is filled, with a block of its own family. */
  predicate IsAt(r: RuleInfo, family: Family, cidr: string) {
    if family == IPv6 then r.cidrBlock == Blank && r.ipv6CidrBlock == Block(IPv6, cidr)
    else r.ipv6CidrBlock == Blank && r.cidrBlock == Block(IPv4, cidr)
  }

  /** A part of a port field. */
  ghost predicate IsPart(field: string, p: string) { p != "" && exists q :: q in Split(field, ',') && p == Trim(q) }

  ghost predicate HasParts(field: string) { exists p :: IsPart(field, p) }

  lemma PartsExactly(field: string, p: string)
    ensures p in SplitPortFieldSpec(field) <==> IsPart(field, p)
    ensures SplitPortFieldSpec(field) == [] <==> !HasParts(field)
  {
    SortedElements(StringLe, DistinctParts(Split(field, ',')));
    var parts := SplitPortFieldSpec(field);
    assert forall x :: x in parts <==> IsPart(field, x);
    hide SplitPortFieldSpec, IsPart;
    if parts != [] { assert IsPart(field, parts[0]); }
  }

  /** Which rules can be judged, and by which keys: one valid address, a protocol, ACCEPT or DROP, and at least one
      port part unless the protocol has no ports; then one key for each part, or the one for all ports. */
  lemma SnapshotKeysExactly(r: RuleInfo, k: Key)
    ensures SnapshotRuleKeys(r).Some? <==>
              && (exists family, cidr :: IsAt(r, family, cidr)) && Trim(r.protocol) != "" && Upper(Trim(r.action)) in {"ACCEPT", "DROP"}
              && (HasParts(r.port) || CanonicalProtocol(r.protocol) in {"ICMP", "ALL"})
    ensures k in KeysOf(r) <==>
              && SnapshotRuleKeys(r).Some? && IsAt(r, k.family, k.cidr)
              && k.protocol == CanonicalProtocol(r.protocol) && k.action == Upper(Trim(r.action))
              && if HasParts(r.port) then exists p :: IsPart(r.port, p) && k.port == CanonicalPort(k.protocol, p) else k.port == "ALL"
  {
    hide HasParts, IsPart, CanonicalProtocol, CanonicalPort, Trim, Upper, RuleAddress, IsAt, BuildKeysSpec;
    AddressExactly(r);
    match RuleAddress(r.cidrBlock, r.ipv6CidrBlock)
    case None =>
    case Some((family, cidr)) => BuiltExactly(family, cidr, r.protocol, r.port, r.action, k);
  }

  lemma BuiltExactly(family: Family, cidr: string, protocol: string, field: string, action: string, k: Key)
    ensures var built := BuildKeysSpec(family, cidr, protocol, field, action);
            && (built.Some? <==> Trim(protocol) != "" && Upper(Trim(action)) in {"ACCEPT", "DROP"}
                                 && (HasParts(field) || CanonicalProtocol(protocol) in {"ICMP", "ALL"}))
            && (built.Some? ==> (k in built.value
                 <==> && k.family == family && k.cidr == cidr && k.protocol == CanonicalProtocol(protocol) && k.action == Upper(Trim(action))
                      && if HasParts(field) then exists p :: IsPart(field, p) && k.port == CanonicalPort(k.protocol, p) else k.port == "ALL"))
  {
    NoProtocol(protocol);
    AllOfProtocol(CanonicalProtocol(protocol));
    hide HasParts, IsPart, CanonicalProtocol, CanonicalPort, Trim, Upper, SplitPortFieldSpec, PortKeys, Sort;
    forall p { PartsExactly(field, p); }
    PartsExactly(field, "");
  }

  lemma NoProtocol(protocol: string)
    ensures CanonicalProtocol(protocol) == "" <==> Trim(protocol) == ""
  {
    hide Trim;
    assert |Upper(Trim(protocol))| == |Trim(protocol)|;
  }

  lemma AllOfProtocol(protocol: string)
    ensures protocol in {"ICMP", "ALL"} ==> CanonicalPort(protocol, "ALL") == "ALL"
  {
  }

  lemma AddressExactly(r: RuleInfo)
    ensures forall family, cidr :: IsAt(r, family, cidr) <==> RuleAddress(r.cidrBlock, r.ipv6CidrBlock) == Some((family, cidr))
  {
  }

  /** Two rules that agree on protocol, port, addresses and action have the same keys, whatever their
      descriptions and locators. */
  lemma KeysIgnoreIdentity(a: RuleInfo, b: RuleInfo)
    requires a.protocol == b.protocol && a.port == b.port && a.cidrBlock == b.cidrBlock
    requires a.ipv6CidrBlock == b.ipv6CidrBlock && a.action == b.action
    ensures SnapshotRuleKeys(a) == SnapshotRuleKeys(b)
  {
  }

  predicate NoBar(s: string) { '|' !in s }

  /** Cutting at the first bar is unambiguous when the heads hold none. */
  lemma FirstBarSplits(a: string, x: string, b: string, y: string)
    requires NoBar(a) && NoBar(b) && a + "|" + x == b + "|" + y
    ensures a == b && x == y
  {
    IndexOfAt(a + "|" + x, '|', |a|);
    IndexOfAt(b + "|" + y, '|', |b|);
    assert a == (a + "|" + x)[..|a|] && b == (b + "|" + y)[..|b|];
    assert x == (a + "|" + x)[|a| + 1..] && y == (b + "|" + y)[|b| + 1..];
  }

  /** Cutting at the last bar is unambiguous when the tails hold none. */
  lemma LastBarSplits(x: string, a: string, y: string, b: string)
    requires NoBar(a) && NoBar(b) && x + ("|" + a) == y + ("|" + b)
    ensures x == y && a == b
  {
    var s := x + ("|" + a);
    assert s[|x|] == '|' && s[|y|] == '|';
    assert forall i :: |x| < i < |s| ==> s[i] in a;
    assert forall i :: |y| < i < |s| ==> s[i] in b;
    assert |x| == |y|;
    assert x == s[..|x|] && y == s[..|y|];
    assert a == s[|x| + 1..] && b == s[|y| + 1..];
  }

  /** The text form identifies a key although ports are free text: only the other fields must hold
      no separator. */
  lemma KeyStringInjective(a: Key, b: Key)
    requires NoBar(a.cidr) && NoBar(b.cidr) && NoBar(a.protocol) && NoBar(b.protocol)
    requires NoBar(a.action) && NoBar(b.action)
    requires KeyString(a) == KeyString(b)
    ensures a == b
  {
    var pa, pb := a.port + ("|" + a.action), b.port + ("|" + b.action);
    var qa, qb := a.protocol + "|" + pa, b.protocol + "|" + pb;
    var ra, rb := a.cidr + "|" + qa, b.cidr + "|" + qb;
    assert KeyString(a) == FamilyName(a.family) + "|" + ra;
    assert KeyString(b) == FamilyName(b.family) + "|" + rb;
    FirstBarSplits(FamilyName(a.family), ra, FamilyName(b.family), rb);
    assert a.family == b.family by { assert "ipv4"[3] != "ipv6"[3]; }
    FirstBarSplits(a.cidr, qa, b.cidr, qb);
    FirstBarSplits(a.protocol, pa, b.protocol, pb);
    LastBarSplits(a.port, a.action, b.port, b.action);
  }

  lemma KeyLeIsTotalPreorder()
    ensures TotalPreorder(KeyLe)
  {
    StringLeIsTotalOrder();
    forall a, b ensures KeyLe(a, b) || KeyLe(b, a) { StringLeTotal(KeyString(a), KeyString(b)); }
    forall a, b, c | KeyLe(a, b) && KeyLe(b, c) ensures KeyLe(a, c) {
      StringLeTransitive(KeyString(a), KeyString(b), KeyString(c));
    }
  }
}
