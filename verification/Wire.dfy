/** How each platform writes a planned rule and reads it back (provider/tc_lighthouse.go, tc_cvm.go,
    ali_ecs.go, ali_swas.go), and why the round trip ends at the planned key. */
module Wire {
  import opened Text
  import opened Tag
  import opened Ports
  import opened PortRoundTrip
  import opened Keys
  import opened Plan
  import opened PlanFacts
  import opened PlanTheorems
  import opened Validate

  /** A rule as the cloud's API carries it; fields a platform leaves out are None or Blank. */
  datatype WireRule = WireRule(protocol: string, port: Option<string>, cidrBlock: Address, ipv6CidrBlock: Address,
                               action: Option<string>, description: string)

  /** A stored rule: what was written plus the locators the cloud assigned. */
  datatype CloudRule = CloudRule(wire: WireRule, ruleID: string, policyIndex: Option<int>)

  predicate IPv6ICMP(a: RuleAction) { !a.ipv6CidrBlock.Blank? && EqualFold(a.protocol, "ICMP") }

  /** The request entry `CreateRules` builds for one rule. */
  function Encode(ct: CloudType, a: RuleAction): WireRule {
    var (v4, v6) := if !a.ipv6CidrBlock.Blank? then (Blank, a.ipv6CidrBlock) else (a.cidrBlock, Blank);
    match ct
    case TCLighthouse =>
      var proto := if IPv6ICMP(a) then "ICMPv6" else a.protocol;
      var port := if EqualFold(proto, "ICMP") || EqualFold(proto, "ICMPv6") || EqualFold(proto, "ALL") then "ALL" else a.port;
      WireRule(proto, Some(port), v4, v6, Some(a.action), a.description)
    case TCCVM =>
      var proto := if IPv6ICMP(a) then "ICMPV6" else a.protocol;
      var port := if EqualFold(proto, "TCP") || EqualFold(proto, "UDP") then Some(a.port) else None;
      WireRule(proto, port, v4, v6, Some(Lower(a.action)), a.description)
    case AliECS => WireRule(a.protocol, Some(a.port), v4, v6, Some(Lower(a.action)), a.description)
    case AliSWAS => WireRule(a.protocol, Some(a.port), a.cidrBlock, Blank, None, a.description)
  }

  /** What the cloud stores for a request entry; a SWAS rule without a policy accepts. */
  function Stored(w: WireRule): WireRule {
    if w.action.None? then w.(action := Some("accept")) else w
  }

  function TextOr(o: Option<string>): string { match o case None => "" case Some(s) => s }

  function IndexText(i: Option<int>): string {
    match i
    case None => ""
    case Some(n) => if n < 0 then "-" + Decimal(-n) else Decimal(n)
  }

  /** What `GetSnapshot` makes of a stored rule. */
  function Decode(ct: CloudType, c: CloudRule): RuleInfo {
    var w := c.wire;
    match ct
    case TCLighthouse =>
      RuleInfo(w.protocol, TextOr(w.port), w.cidrBlock, w.ipv6CidrBlock, TextOr(w.action), w.description, "", "")
    case TCCVM =>
      RuleInfo(Upper(w.protocol), TextOr(w.port), w.cidrBlock, w.ipv6CidrBlock, Upper(TextOr(w.action)), w.description,
               IndexText(c.policyIndex), "")
    case AliECS =>
      RuleInfo(Upper(w.protocol), NormalizeAliPort(TextOr(w.port)), w.cidrBlock, w.ipv6CidrBlock, Upper(TextOr(w.action)),
               w.description, "", c.ruleID)
    case AliSWAS =>
      RuleInfo(w.protocol, NormalizeAliPort(TextOr(w.port)), w.cidrBlock, Blank, Upper(TextOr(w.action)),
               w.description, "", c.ruleID)
  }

  // --------------------------------------------------------------- the round trip

  /** What one platform must bring back: the planned key and the description. */
  ghost predicate ReadsBackAs(ct: CloudType, a: RuleAction, k: Key) {
    forall id, index ::
      var r := Decode(ct, CloudRule(Stored(Encode(ct, a)), id, index));
      SnapshotRuleKeys(r) == Some([k]) && r.description == a.description
  }

  /** Nothing a platform can store for the action holds the key. */
  ghost predicate NeverCovers(ct: CloudType, a: RuleAction, k: Key) {
    forall id, index :: k !in KeysOf(Decode(ct, CloudRule(Stored(Encode(ct, a)), id, index)))
  }

  lemma ActionCases(action: string)
    requires action in {"ACCEPT", "DROP"}
    ensures Upper(Lower(action)) == action && Upper(action) == action && Upper("accept") == "ACCEPT"
  {
    assert Lower("ACCEPT") == "accept" && Lower("DROP") == "drop";
    assert Upper("accept") == "ACCEPT" && Upper("drop") == "DROP";
    assert Upper("ACCEPT") == "ACCEPT" && Upper("DROP") == "DROP";
  }

  /** One clean port text, one key: the common end of all round trips. */
  lemma ReadsOneKey(r: RuleInfo, k: Key)
    requires RuleAddress(r.cidrBlock, r.ipv6CidrBlock) == Some((k.family, k.cidr))
    requires CanonicalProtocol(r.protocol) == k.protocol && k.protocol in {"TCP", "UDP", "TCP+UDP", "ICMP"}
    requires r.action == k.action && k.action in {"ACCEPT", "DROP"}
    requires (r.port != "" && Trimmed(r.port) && ',' !in r.port && CanonicalPort(k.protocol, r.port) == k.port)
             || (r.port == "" && k.protocol == "ICMP" && k.port == "ALL")
    ensures SnapshotRuleKeys(r) == Some([k])
  {
    hide CanonicalProtocol, CanonicalPort, RuleAddress, Trim, Upper, SplitPortFieldSpec, BuildKeysSpec;
    ActionWord(k.action);
    if r.port == "" {
      PortlessICMPKeys(k, r.protocol, r.action);
    } else {
      OnePartField(r.port);
      OnePortKeys(k.family, k.cidr, r.protocol, r.port, r.action);
    }
  }

  lemma PortlessICMPKeys(k: Key, protocol: string, action: string)
    requires CanonicalProtocol(protocol) == k.protocol == "ICMP" && k.port == "ALL"
    requires action == k.action && Upper(Trim(action)) == action && action in {"ACCEPT", "DROP"}
    ensures BuildKeysSpec(k.family, k.cidr, protocol, "", action) == Some([k])
  {
    hide CanonicalProtocol, Trim, Upper, SplitPortFieldSpec, CanonicalPort;
    EmptyField();
    SingleKey(k.family, k.cidr, "ICMP", "ALL", action);
    assert CanonicalPort("ICMP", "ALL") == "ALL" by { ICMPPort(); }
  }

  lemma ICMPPort()
    ensures forall p :: CanonicalPort("ICMP", p) == "ALL"
  {
    hide Trim, Upper;
  }

  lemma ICMPv6Words()
    ensures CanonicalProtocol("ICMPv6") == "ICMP" && CanonicalProtocol("ICMPV6") == "ICMP"
    ensures CanonicalProtocol(Upper("ICMPV6")) == "ICMP"
    ensures EqualFold("ICMPv6", "ICMPv6") && !EqualFold("ICMPV6", "TCP") && !EqualFold("ICMPV6", "UDP")
  {
    hide Trim;
    assert Upper("ICMPv6") == "ICMPV6" && Upper("ICMPV6") == "ICMPV6";
    assert |Upper("TCP")| == 3 && |Upper("UDP")| == 3 && |Upper("ICMPV6")| == 6;
    assert Trimmed("ICMPv6") && Trimmed("ICMPV6");
    TrimOfTrimmed("ICMPv6");
    TrimOfTrimmed("ICMPV6");
  }

  lemma FoldIsEquality(p: string, q: string)
    requires Plain(p) && Plain(q)
    ensures EqualFold(p, q) <==> p == q
  {
    hide Upper, Trim;
    PlainIsFixed(p);
    PlainIsFixed(q);
  }

  lemma PlannedWords(p: string)
    requires p in {"TCP", "UDP", "TCP+UDP", "ICMP"}
    ensures Upper(p) == p && CanonicalProtocol(p) == p
    ensures EqualFold(p, "ICMP") <==> p == "ICMP"
    ensures EqualFold(p, "TCP") <==> p == "TCP"
    ensures EqualFold(p, "UDP") <==> p == "UDP"
    ensures !EqualFold(p, "ICMPv6") && !EqualFold(p, "ALL")
  {
    hide Upper, Trim;
    PlainIsFixed(p);
    FoldIsEquality(p, "ICMP");
    FoldIsEquality(p, "TCP");
    FoldIsEquality(p, "UDP");
    FoldIsEquality(p, "ALL");
    assert Upper("ICMPv6") == "ICMPV6";
  }

  /** An item of a stored rule that the platform can express. */
  ghost predicate Sendable(ct: CloudType, it: Item) { WellMade(ct, it) && Normal(it.rule) && it.reason.None? }

  /** The facts about a planned item with a port that the codecs rely on. */
  ghost predicate Planned(ct: CloudType, it: Item) { Sendable(ct, it) && ParseSpec(it.rule.ports) != [] }

  /** Whether what is written for an item is read back as its key: its port list has an item, and on Alibaba
      the port was written for one that comes back. */
  ghost predicate ItemReadsBack(ct: CloudType, it: Item) {
    && ParseSpec(it.rule.ports) != []
    && (Alibaba(ct) && it.action.protocol != "ICMP" ==>
          exists item :: item in ParseSpec(it.rule.ports) && it.action.port == WireItem(ct, it.action.protocol, item) && ComesBack(item))
  }

  lemma PlannedItemFacts(ct: CloudType, it: Item)
    requires Planned(ct, it)
    ensures it.action.protocol in {"TCP", "UDP", "TCP+UDP", "ICMP"} && it.key.protocol == it.action.protocol
    ensures it.key.action in {"ACCEPT", "DROP"} && it.action.action == it.key.action
    ensures Normal(it.rule) && (it.action.protocol == "ICMP" <==> it.rule.protocol == "ICMP")
    ensures it.action.protocol == "TCP+UDP" ==> ct == AliSWAS
    ensures it.action.port != "" && Trimmed(it.action.port) && ',' !in it.action.port
    ensures CanonicalPort(it.key.protocol, it.action.port) == it.key.port
    ensures exists item :: item in ParseSpec(it.rule.ports) && it.action.port == WireItem(ct, it.action.protocol, item)
                           && item != "" && Trimmed(item) && ',' !in item
  {
    hide CanonicalPort, CanonicalProtocol, Trim, Upper, ProtocolsOf, ParseSpec, WireItem;
    ItemProtocol(ct, it.rule, it.action.protocol);
    NormalWordsAreFixed(it.rule);
    var items := ParseSpec(it.rule.ports);
    var wire := PlannedPortsSpec(ct, it.action.protocol, it.rule.ports);
    var i :| 0 <= i < |wire| && wire[i] == it.action.port;
    ItemsAre(it.rule.ports, items[i]);
    WireItemShape(ct, it.action.protocol, items[i]);
    assert items[i] in items;
  }

  lemma PlannedAddress(ct: CloudType, it: Item)
    requires Sendable(ct, it)
    ensures RuleAddress(it.action.cidrBlock, it.action.ipv6CidrBlock) == Some((it.key.family, it.key.cidr))
    ensures if it.key.family == IPv6 then it.action.cidrBlock.Blank? && !it.action.ipv6CidrBlock.Blank?
            else it.action.ipv6CidrBlock.Blank?
    ensures ct == AliSWAS ==> it.key.family == IPv4 && it.key.action != "DROP"
  {
    hide CanonicalPort, CanonicalProtocol, Trim, Upper, ProtocolsOf, PlannedPortsSpec, ParseSpec;
  }

  lemma SendableWords(ct: CloudType, it: Item)
    requires Sendable(ct, it)
    ensures it.action.protocol in {"TCP", "UDP", "TCP+UDP", "ICMP"} && it.key.protocol == it.action.protocol
    ensures it.key.action in {"ACCEPT", "DROP"} && it.action.action == it.key.action
    ensures it.action.protocol == "ICMP" <==> it.rule.protocol == "ICMP"
    ensures it.action.protocol == "TCP+UDP" ==> ct == AliSWAS
    ensures CanonicalPort(it.key.protocol, it.action.port) == it.key.port
  {
    hide CanonicalPort, CanonicalProtocol, Trim, Upper, ProtocolsOf, ParseSpec, WireItem;
    ItemProtocol(ct, it.rule, it.action.protocol);
    NormalWordsAreFixed(it.rule);
  }

  /** The words a platform is sent for an item it can express, from the item's key: exactly one address field,
      the key's; ICMP over IPv6 under the name the two Tencent platforms have for it; the action in the platform's
      spelling, and none at SWAS, which can only accept. */
  lemma WordsOnTheWire(ct: CloudType, it: Item)
    requires Sendable(ct, it)
    ensures var (w, k) := (Encode(ct, it.action), it.key);
            && w.description == it.action.description
            && RuleAddress(w.cidrBlock, w.ipv6CidrBlock) == Some((k.family, k.cidr))
            && (if k.family == IPv6 then w.cidrBlock.Blank? else w.ipv6CidrBlock.Blank?)
            && w.protocol == (if k.protocol == "ICMP" && k.family == IPv6 && ct == TCLighthouse then "ICMPv6"
                              else if k.protocol == "ICMP" && k.family == IPv6 && ct == TCCVM then "ICMPV6" else k.protocol)
            && w.port == (if k.protocol == "ICMP" && ct == TCLighthouse then Some("ALL")
                          else if k.protocol == "ICMP" && ct == TCCVM then None else Some(it.action.port))
            && w.action == (match ct
                            case TCLighthouse => Some(k.action)
                            case AliSWAS => None
                            case _ => Some(if k.action == "DROP" then "drop" else "accept"))
  {
    hide CanonicalPort, CanonicalProtocol, Trim, Upper, Lower, EqualFold, RuleAddress, SnapshotRuleKeys, Sendable;
    SendableWords(ct, it);
    PlannedAddress(ct, it);
    PlannedWords(it.action.protocol);
    ICMPv6Words();
    LowerWords();
  }

  lemma LowerWords()
    ensures Lower("ACCEPT") == "accept" && Lower("DROP") == "drop"
  {
  }

  /** The port field a platform gives back for what was written. */
  function PortBack(ct: CloudType, protocol: string, port: string): string {
    if Alibaba(ct) then NormalizeAliPort(port)
    else if protocol == "ICMP" then (if ct == TCCVM then "" else "ALL")
    else port
  }

  /** Everything but the port comes back as it was planned. */
  lemma DecodedRule(ct: CloudType, it: Item, description: string, id: string, index: Option<int>)
    requires Sendable(ct, it)
    ensures var r := Decode(ct, CloudRule(Stored(Encode(ct, it.action.(description := description))), id, index));
            && RuleAddress(r.cidrBlock, r.ipv6CidrBlock) == Some((it.key.family, it.key.cidr))
            && CanonicalProtocol(r.protocol) == it.key.protocol && r.action == it.key.action && r.description == description
            && r.port == PortBack(ct, it.action.protocol, it.action.port)
  {
    hide CanonicalPort, CanonicalProtocol, Trim, Upper, Lower, EqualFold, RuleAddress, SnapshotRuleKeys, NormalizeAliPort, Sendable;
    var a := it.action.(description := description);
    SendableWords(ct, it);
    PlannedAddress(ct, it);
    PlannedWords(a.protocol);
    ICMPv6Words();
    ActionCases(a.action);
    if Alibaba(ct) { AliDecoded(ct, a, id, index); }
  }

  /** A port field that is one clean part gives one key, the planned one exactly if its port is the planned
      one; a blank field of a protocol with ports gives none. */
  lemma OnePortBack(r: RuleInfo, k: Key)
    requires RuleAddress(r.cidrBlock, r.ipv6CidrBlock) == Some((k.family, k.cidr))
    requires CanonicalProtocol(r.protocol) == k.protocol && k.protocol in {"TCP", "UDP", "TCP+UDP"}
    requires r.action == k.action && k.action in {"ACCEPT", "DROP"} && Trimmed(r.port) && ',' !in r.port
    ensures if r.port != "" && CanonicalPort(k.protocol, r.port) == k.port then SnapshotRuleKeys(r) == Some([k]) else k !in KeysOf(r)
  {
    hide CanonicalProtocol, CanonicalPort, RuleAddress, Trim, Upper, SplitPortFieldSpec, BuildKeysSpec;
    ActionWord(k.action);
    if r.port == "" {
      EmptyField();
      PortlessKeys(k.family, k.cidr, r.protocol, r.port, r.action);
    } else {
      OnePartField(r.port);
      OnePortKeys(k.family, k.cidr, r.protocol, r.port, r.action);
    }
  }

  /** Without items there is nothing to read back: the written field holds commas and blanks alone. */
  lemma NoItemsBack(ct: CloudType, it: Item, r: RuleInfo)
    requires Sendable(ct, it) && ParseSpec(it.rule.ports) == []
    requires RuleAddress(r.cidrBlock, r.ipv6CidrBlock) == Some((it.key.family, it.key.cidr))
    requires CanonicalProtocol(r.protocol) == it.key.protocol && r.action == it.key.action
    requires r.port == PortBack(ct, it.action.protocol, it.action.port)
    ensures KeysOf(r) == []
  {
    hide CanonicalProtocol, CanonicalPort, RuleAddress, Trim, Upper, SplitPortFieldSpec, BuildKeysSpec, ParseSpec, NormalizeAliPort, ProtocolsOf;
    SendableWords(ct, it);
    NoItemsNoICMP(it.rule);
    assert it.action.port == it.rule.ports;
    BlankField(it.rule.ports);
    if Alibaba(ct) { NoSlashWithoutItem(it.rule.ports); }
    PortlessKeys(it.key.family, it.key.cidr, r.protocol, r.port, r.action);
  }

  lemma NoSlashWithoutItem(ports: string)
    requires Trimmed(ports) && ports != "" && ParseSpec(ports) == []
    ensures NormalizeAliPort(ports) == ports
  {
    hide EqualFold, Trim;
    TrimOfTrimmed(ports);
    if '/' in ports {
      SplitKeeps(ports, ',', '/');
      var p :| p in Split(ports, ',') && '/' in p;
      SlashMakesItem(Split(ports, ','), p);
    } else {
      IndexOfNone(ports, '/');
      assert "-1/-1"[2] == '/';
    }
  }

  lemma {:induction false} SplitKeeps(s: string, sep: char, c: char)
    requires c in s && c != sep
    ensures exists p :: p in Split(s, sep) && c in p
    decreases |s|
  {
    var i := IndexOf(s, sep);
    if i == |s| {
      assert Split(s, sep) == [s];
    } else if c in s[..i] {
      assert s[..i] == Split(s, sep)[0];
    } else {
      var rest := s[i + 1..];
      var k :| 0 <= k < |s| && s[k] == c;
      assert forall j :: 0 <= j < i ==> s[j] in s[..i];
      assert rest[k - i - 1] == c;
      SplitKeeps(rest, sep, c);
      var p :| p in Split(rest, sep) && c in p;
      assert Split(s, sep) == [s[..i]] + Split(rest, sep);
    }
  }

  lemma {:induction false} SlashMakesItem(parts: seq<string>, p: string)
    requires p in parts && '/' in p
    ensures NonBlankParts(parts) != []
  {
    hide Trim;
    var (init, last) := (parts[..|parts| - 1], parts[|parts| - 1]);
    if p == last {
      SlashIsNoSpace(p);
    } else {
      assert p in init;
      SlashMakesItem(init, p);
    }
  }

  lemma SlashIsNoSpace(p: string)
    requires '/' in p
    ensures Trim(p) != ""
  {
    var l := TrimLeft(p);
    LeftKeepsSlash(p);
    RightKeepsSlash(l);
  }

  lemma {:induction false} LeftKeepsSlash(p: string)
    requires '/' in p
    ensures '/' in TrimLeft(p)
    decreases |p|
  {
    if IsSpace(p[0]) {
      assert '/' in p[1..] by { var k :| 0 <= k < |p| && p[k] == '/'; assert k > 0 && p[1..][k - 1] == '/'; }
      LeftKeepsSlash(p[1..]);
    }
  }

  lemma {:induction false} RightKeepsSlash(p: string)
    requires '/' in p
    ensures '/' in TrimRight(p)
    decreases |p|
  {
    if IsSpace(p[|p| - 1]) {
      assert '/' in p[..|p| - 1] by { var k :| 0 <= k < |p| && p[k] == '/'; assert k < |p| - 1 && p[..|p| - 1][k] == '/'; }
      RightKeepsSlash(p[..|p| - 1]);
    }
  }

  lemma ICMPBack(ct: CloudType, it: Item, r: RuleInfo)
    requires Sendable(ct, it) && it.action.protocol == "ICMP"
    requires RuleAddress(r.cidrBlock, r.ipv6CidrBlock) == Some((it.key.family, it.key.cidr))
    requires CanonicalProtocol(r.protocol) == it.key.protocol && r.action == it.key.action
    requires r.port == PortBack(ct, it.action.protocol, it.action.port)
    ensures SnapshotRuleKeys(r) == Some([it.key]) && ParseSpec(it.rule.ports) != []
  {
    hide CanonicalProtocol, CanonicalPort, RuleAddress, Trim, Upper, SnapshotRuleKeys, NormalizeAliPort, ProtocolsOf, WireItem, EqualFold;
    SendableWords(ct, it);
    assert ParseSpec(it.rule.ports) == ["ALL"] by {
      hide Trim, EqualFold;
      AllIsPlain();
    }
    ICMPPort();
    AllIsPlain();
    PlainIsFixed("ALL");
    if Alibaba(ct) { AliICMPPort(ct, "ALL"); }
    ReadsOneKey(r, it.key);
  }


  /** On Alibaba the written port decides, whichever of its items it was written for. */
  lemma AlibabaPortBack(ct: CloudType, it: Item)
    requires Alibaba(ct) && Planned(ct, it) && it.action.protocol != "ICMP"
    ensures ItemReadsBack(ct, it) <==> SamePort(it.key.protocol, it.action.port)
    ensures var back := NormalizeAliPort(it.action.port);
            Trimmed(back) && ',' !in back && (back == "" ==> !ItemReadsBack(ct, it))
  {
    hide ParseSpec, WireItem, SamePort, NormalizeAliPort, ComesBack, Planned;
    PlannedItemFacts(ct, it);
    forall item | item in ParseSpec(it.rule.ports) && it.action.port == WireItem(ct, it.action.protocol, item)
      ensures ComesBack(item) <==> SamePort(it.key.protocol, it.action.port)
      ensures var back := NormalizeAliPort(it.action.port); Clean(back) && (back == "" ==> !ComesBack(item))
    {
      ItemsAre(it.rule.ports, item);
      AliPortRoundTripExact(ct, it.action.protocol, item);
      if item == "-" { DashStaysAway(); }
    }
  }

  lemma DashStaysAway()
    ensures !ComesBack("-")
  {
    FoldLengths("-", "ALL");
  }

  /** What a cloud stores for an item it is sent is read back as exactly the item's key if the item reads
      back, and otherwise never covers that key. */
  lemma ReadBackExact(ct: CloudType, it: Item, description: string)
    requires Sendable(ct, it)
    ensures if ItemReadsBack(ct, it) then ReadsBackAs(ct, it.action.(description := description), it.key)
            else NeverCovers(ct, it.action.(description := description), it.key)
  {
    hide CanonicalPort, CanonicalProtocol, Trim, Upper, RuleAddress, WireItem, ParseSpec, SnapshotRuleKeys, NormalizeAliPort,
         Sendable, ItemReadsBack, ComesBack, Decode, Encode, Stored, SamePort;
    var a := it.action.(description := description);
    forall id, index
      ensures var r := Decode(ct, CloudRule(Stored(Encode(ct, a)), id, index));
              if ItemReadsBack(ct, it) then SnapshotRuleKeys(r) == Some([it.key]) && r.description == a.description
              else it.key !in KeysOf(r)
    {
      DecodedRule(ct, it, description, id, index);
      ItemBack(ct, it, Decode(ct, CloudRule(Stored(Encode(ct, a)), id, index)));
    }
  }

  lemma ItemBack(ct: CloudType, it: Item, r: RuleInfo)
    requires Sendable(ct, it)
    requires RuleAddress(r.cidrBlock, r.ipv6CidrBlock) == Some((it.key.family, it.key.cidr))
    requires CanonicalProtocol(r.protocol) == it.key.protocol && r.action == it.key.action
    requires r.port == PortBack(ct, it.action.protocol, it.action.port)
    ensures if ItemReadsBack(ct, it) then SnapshotRuleKeys(r) == Some([it.key]) else it.key !in KeysOf(r)
  {
    hide CanonicalPort, CanonicalProtocol, Trim, Upper, RuleAddress, WireItem, ParseSpec, SnapshotRuleKeys, NormalizeAliPort,
         WellMade, Normal, ComesBack;
    SendableWords(ct, it);
    if it.action.protocol == "ICMP" {
      ICMPBack(ct, it, r);
    } else if ParseSpec(it.rule.ports) == [] {
      NoItemsBack(ct, it, r);
    } else {
      PlannedItemFacts(ct, it);
      if Alibaba(ct) { AlibabaPortBack(ct, it); }
      OnePortBack(r, it.key);
    }
  }

  lemma AliDecoded(ct: CloudType, a: RuleAction, id: string, index: Option<int>)
    requires Alibaba(ct) && Upper(Lower(a.action)) == a.action && Upper("accept") == "ACCEPT" && Upper(a.protocol) == a.protocol
    requires ct == AliSWAS ==> a.action == "ACCEPT" && a.ipv6CidrBlock.Blank?
    requires !a.ipv6CidrBlock.Blank? ==> a.cidrBlock.Blank?
    ensures var r := Decode(ct, CloudRule(Stored(Encode(ct, a)), id, index));
            && r.protocol == a.protocol && r.port == NormalizeAliPort(a.port) && r.action == a.action
            && r.cidrBlock == a.cidrBlock && r.ipv6CidrBlock == a.ipv6CidrBlock && r.description == a.description
  {
    hide Upper, Lower, NormalizeAliPort;
  }

  lemma AliICMPPort(ct: CloudType, item: string)
    requires Alibaba(ct) && item == "ALL"
    ensures NormalizeAliPort(WireItem(ct, "ICMP", item)) == "ALL" && Trimmed("ALL") && ',' !in "ALL"
  {
    hide Trim, EqualFold, IndexOf;
    AllIsPlain();
    PlannedWords("ICMP");
    assert !PortedProtocol("ICMP") by {
      FoldIsEquality("ICMP", "TCP");
      FoldIsEquality("ICMP", "UDP");
      FoldIsEquality("ICMP", "TCP+UDP");
    }
  }

  /** Every expectation a platform can express comes back from it as exactly its planned key, under the
      description it was written with, if the item it was planned from reads back, and only then; otherwise
      nothing stored for it ever covers its key. */
  lemma WireRoundTripExact(inp: PlanInput, d: PlannedRule)
    requires NormalInput(inp) && d in DesiredOf(inp) && d.implementable
    ensures exists it ::
              && it in AllItems(inp, SortedRules(inp)) && it.key == d.key && d.action == it.action.(description := d.description)
              && (if ItemReadsBack(inp.cloudType, it) then ReadsBackAs(inp.cloudType, d.action, d.key)
                  else NeverCovers(inp.cloudType, d.action, d.key))
  {
    hide DesiredOf, AllItems, WellMade, ReadsBackAs, NeverCovers, ItemReadsBack, Normal;
    var it := ItemOfDesired(inp, d);
    ReadBackExact(inp.cloudType, it, d.description);
  }

  lemma ItemOfDesired(inp: PlanInput, d: PlannedRule) returns (it: Item)
    requires NormalInput(inp) && d in DesiredOf(inp) && d.implementable
    ensures it in AllItems(inp, SortedRules(inp)) && it.key == d.key && d.action == it.action.(description := d.description)
    ensures Sendable(inp.cloudType, it) && it.rule in inp.rules
  {
    hide DesiredOf, AllItems, WellMade, Normal;
    DesiredEntryFits(inp, d);
    it :| it in AllItems(inp, SortedRules(inp)) && it.key == d.key && WellMade(inp.cloudType, it)
          && d.implementable == it.reason.None? && d.action == it.action.(description := d.description);
    AllItemsWellMade(inp, SortedRules(inp));
    SortedElements(RuleIDLe, inp.rules);
  }

  /** With port lists that come back, every expectation a platform can express comes back from it as exactly
      its planned key, under the description it was written with. */
  lemma WireRoundTrip(inp: PlanInput, d: PlannedRule)
    requires NormalInput(inp) && d in DesiredOf(inp) && d.implementable
    requires forall r :: r in inp.rules ==> PortsComeBack(inp.cloudType, r.ports)
    ensures ReadsBackAs(inp.cloudType, d.action, d.key)
  {
    hide DesiredOf, AllItems, ReadsBackAs, NeverCovers, PortsComeBack, Sendable, ItemReadsBack;
    var it := ItemOfDesired(inp, d);
    AllItemsReadBack(inp.cloudType, it);
    ReadBackExact(inp.cloudType, it, d.description);
  }

  lemma AllItemsReadBack(ct: CloudType, it: Item)
    requires Sendable(ct, it) && PortsComeBack(ct, it.rule.ports)
    ensures ItemReadsBack(ct, it)
  {
    hide ParseSpec, ComesBack, WireItem, WellMade, Normal;
    if it.action.protocol != "ICMP" { PlannedItemFacts(ct, it); }
  }

  // ---------------------------------------------------- rules that are never met

  /** Validation accepts a rule with the ports "-1", yet what an Alibaba platform stores for it never covers
      its key. */
  lemma MinusOneIsNeverMet(ct: CloudType, raw: DomainRule, it: Item, description: string)
    requires Alibaba(ct) && Trim(raw.host) != "" && Upper(Trim(raw.protocol)) in {"TCP", "UDP", "TCP+UDP"}
    requires Upper(Trim(raw.action)) in {"ACCEPT", "DROP"} && raw.ports == "-1"
    ensures NormalizeRule(raw).Some? && NormalizeRule(raw).value.ports == "-1"
    ensures Sendable(ct, it) && it.rule == NormalizeRule(raw).value ==> NeverCovers(ct, it.action.(description := description), it.key)
  {
    hide Trim, Upper, NeverCovers, ReadsBackAs, Sendable, ItemReadsBack;
    PlainIsFixed("-1");
    if Sendable(ct, it) && it.rule == NormalizeRule(raw).value {
      MinusOneDoesNotReadBack(ct, it);
      ReadBackExact(ct, it, description);
    }
  }

  lemma MinusOneDoesNotReadBack(ct: CloudType, it: Item)
    requires Alibaba(ct) && Sendable(ct, it) && it.rule.protocol != "ICMP" && it.rule.ports == "-1"
    ensures !ItemReadsBack(ct, it)
  {
    hide ParseSpec, ComesBack, WireItem, WellMade, Normal;
    SendableWords(ct, it);
    MinusOneIsItem();
    MinusOneStaysAway();
  }

  lemma MinusOneIsItem()
    ensures ParseSpec("-1") == ["-1"]
  {
    hide Trim;
    PlainIsFixed("-1");
    FoldLengths("-1", "ALL");
    IndexOfNone("-1", ',');
    assert Split("-1", ',') == ["-1"];
    assert ["-1"][..0] == [] && NonBlankParts([]) == [];
  }

  lemma MinusOneStaysAway()
    ensures !ComesBack("-1")
  {
    FoldLengths("-1", "ALL");
  }

  /** Validation accepts a rule whose port list is a comma, yet on no platform does anything stored for it
      cover its key. */
  lemma CommaIsNeverMet(ct: CloudType, raw: DomainRule, it: Item, description: string)
    requires Trim(raw.host) != "" && Upper(Trim(raw.protocol)) in {"TCP", "UDP", "TCP+UDP"}
    requires Upper(Trim(raw.action)) in {"ACCEPT", "DROP"} && raw.ports == ","
    ensures NormalizeRule(raw).Some? && NormalizeRule(raw).value.ports == ","
    ensures Sendable(ct, it) && it.rule == NormalizeRule(raw).value ==> NeverCovers(ct, it.action.(description := description), it.key)
  {
    hide Trim, Upper, NeverCovers, ReadsBackAs, WellMade, Normal, ParseSpec;
    assert Trim(",") == "," by { TrimOfTrimmed(","); }
    if Sendable(ct, it) && it.rule == NormalizeRule(raw).value {
      CommaHasNoItem();
      ReadBackExact(ct, it, description);
    }
  }

  lemma CommaHasNoItem()
    ensures ParseSpec(",") == []
  {
    hide Trim;
    TrimOfTrimmed(",");
    TrimOfTrimmed("");
    FoldLengths(",", "ALL");
    IndexOfAt(",", ',', 0);
    IndexOfNone("", ',');
    assert ","[..0] == "" && ","[1..] == "";
    assert Split("", ',') == [""] && Split(",", ',') == ["", ""];
    assert ["", ""][..1] == [""] && [""][..0] == [];
  }
}
