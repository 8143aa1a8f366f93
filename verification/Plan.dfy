/** The target-level planner of provider/plan.go as a specification: what one complete set of
    expectations and one cloud snapshot must be turned into. `Planner.PlanTarget` computes it the
    way the source does. */
module Plan {
  import opened Text
  import opened Tag
  import opened Ports
  import opened Keys

  datatype DomainRule = DomainRule(id: int, host: string, protocol: string, ports: string, action: string,
                                   targets: seq<int>, comment: string, enableIPv6: bool)

  ghost predicate DistinctIDs(rules: seq<DomainRule>) {
    forall i, j :: 0 <= i < j < |rules| ==> rules[i].id != rules[j].id
  }

  /** One resolved address: its canonical prefix text (None when the text is not a prefix) and the
      family flag the resolver sets. */
  datatype ResolvedIP = ResolvedIP(prefix: Option<string>, isIPv6: bool)

  datatype IssueCode = DNSFailed | DNSEmpty | SnapshotIncomplete | UnsupportedIPv6 | UnsupportedICMPv6
                     | UnsupportedAction | OwnedLocatorMissing | OwnedKeyAmbiguous | SnapshotRuleInvalid
                     | OppositeAction | DesiredEmpty | CoverageNotReady

  function CodeName(c: IssueCode): string {
    match c
    case DNSFailed => "dns_failed"
    case DNSEmpty => "dns_empty"
    case SnapshotIncomplete => "snapshot_incomplete"
    case UnsupportedIPv6 => "unsupported_ipv6"
    case UnsupportedICMPv6 => "unsupported_icmpv6"
    case UnsupportedAction => "unsupported_action"
    case OwnedLocatorMissing => "owned_locator_missing"
    case OwnedKeyAmbiguous => "owned_key_ambiguous"
    case SnapshotRuleInvalid => "snapshot_rule_invalid"
    case OppositeAction => "opposite_action"
    case DesiredEmpty => "desired_empty"
    case CoverageNotReady => "coverage_not_ready"
  }

  /** What the message of an issue names besides the other fields: a text, a rule of the snapshot, a count. */
  datatype Subject = NoSubject
                   | Says(text: string)
                   | Names(protocol: string, port: string, cidr: Address, action: string, description: string)
                   | Counts(n: nat)

  const DESCRIBED_RUNES := 40

  /** `describeCloudRule`: long descriptions are cut, and the IPv6 address stands in for a blank IPv4 one. */
  function Described(r: RuleInfo): Subject {
    Names(r.protocol, r.port, if r.cidrBlock.Blank? then r.ipv6CidrBlock else r.cidrBlock, r.action,
          if |r.description| > DESCRIBED_RUNES then r.description[..DESCRIBED_RUNES] + "\U{2026}" else r.description)
  }

  datatype Issue = Issue(code: IssueCode, key: Option<Key>, domain: string, ruleID: int, subject: Subject)

  function IssueKeyText(i: Issue): string {
    match i.key case None => "" case Some(k) => KeyString(k)
  }

  predicate IssueLe(a: Issue, b: Issue) {
    var (ca, cb) := (CodeName(a.code), CodeName(b.code));
    if ca != cb then StringLe(ca, cb)
    else if IssueKeyText(a) != IssueKeyText(b) then StringLe(IssueKeyText(a), IssueKeyText(b))
    else if a.domain != b.domain then StringLe(a.domain, b.domain)
    else a.ruleID <= b.ruleID
  }

  datatype RuleSnapshot = RuleSnapshot(rules: seq<RuleInfo>, revision: string)

  datatype PlannedRule = PlannedRule(key: Key, comment: string, description: string, ruleIDs: seq<int>,
                                     domains: seq<string>, implementable: bool, action: RuleAction)

  datatype PlanMatch = PlanMatch(key: Key, description: string, rules: seq<RuleInfo>)

  datatype TargetPlan = TargetPlan(desired: seq<PlannedRule>,
                                   satisfiedByOwned: seq<PlanMatch>, satisfiedByExternal: seq<PlanMatch>,
                                   toAdd: seq<RuleAction>,
                                   cleanupCandidates: seq<RuleInfo>, cleanupDeletable: seq<RuleInfo>,
                                   cleanupDeferred: seq<Issue>, dnsErrors: seq<Issue>,
                                   unsupported: seq<Issue>, conflicts: seq<Issue>, coverageReady: bool)

  datatype PlanInput = PlanInput(cloudType: CloudType, tag: string, rules: seq<DomainRule>,
                                 resolved: map<int, seq<ResolvedIP>>, dnsErrors: map<int, string>,
                                 snapshot: RuleSnapshot, addStateUnknown: bool)

  datatype Capability = Capability(ipv6: bool, icmpv6: bool, tcpUDP: bool, drop: bool)

  function Capabilities(ct: CloudType): Capability {
    match ct
    case AliSWAS => Capability(false, false, true, false)
    case AliECS => Capability(true, false, false, true)
    case _ => Capability(true, true, false, true)
  }

  /** Why the platform cannot express an expectation; the family limits come first. */
  function UnsupportedReason(caps: Capability, family: Family, protocol: string, action: string): Option<IssueCode> {
    if family == IPv6 && !caps.ipv6 then Some(UnsupportedIPv6)
    else if family == IPv6 && protocol == "ICMP" && !caps.icmpv6 then Some(UnsupportedICMPv6)
    else if action == "DROP" && !caps.drop then Some(UnsupportedAction)
    else None
  }

  // ------------------------------------------------- 1) expectations, unrolled

  /** One (rule, address, protocol, port) combination before equal keys are merged. */
  datatype Item = Item(key: Key, reason: Option<IssueCode>, action: RuleAction, rule: DomainRule)

  function ItemOf(ct: CloudType, r: DomainRule, family: Family, cidr: string, proto: string, wirePort: string): Item {
    var keyProto := CanonicalProtocol(proto);
    var action := Upper(Trim(r.action));
    Item(Key(family, cidr, keyProto, CanonicalPort(keyProto, wirePort), action),
         UnsupportedReason(Capabilities(ct), family, keyProto, action),
         RuleAction(proto, wirePort,
                    if family == IPv4 then Block(IPv4, cidr) else Blank,
                    if family == IPv6 then Block(IPv6, cidr) else Blank,
                    action, ""),
         r)
  }

  function PortItems(ct: CloudType, r: DomainRule, family: Family, cidr: string, proto: string, wire: seq<string>): seq<Item> {
    if wire == [] then []
    else PortItems(ct, r, family, cidr, proto, wire[..|wire| - 1]) + [ItemOf(ct, r, family, cidr, proto, wire[|wire| - 1])]
  }

  function ProtocolsOf(ct: CloudType, r: DomainRule): seq<string> {
    if EqualFold(r.protocol, "TCP+UDP") && !Capabilities(ct).tcpUDP then ["TCP", "UDP"] else [r.protocol]
  }

  function ProtocolItems(ct: CloudType, r: DomainRule, family: Family, cidr: string, protos: seq<string>): seq<Item> {
    if protos == [] then []
    else
      var p := protos[|protos| - 1];
      ProtocolItems(ct, r, family, cidr, protos[..|protos| - 1])
      + PortItems(ct, r, family, cidr, p, PlannedPortsSpec(ct, p, r.ports))
  }

  function FamilyOf(ip: ResolvedIP): Family { if ip.isIPv6 then IPv6 else IPv4 }

  function AddressItems(ct: CloudType, r: DomainRule, ip: ResolvedIP): seq<Item> {
    match ip.prefix
    case None => []
    case Some(cidr) => ProtocolItems(ct, r, FamilyOf(ip), cidr, ProtocolsOf(ct, r))
  }

  function AddressesItems(ct: CloudType, r: DomainRule, ips: seq<ResolvedIP>): seq<Item> {
    if ips == [] then [] else AddressesItems(ct, r, ips[..|ips| - 1]) + AddressItems(ct, r, ips[|ips| - 1])
  }

  function AddressesIssues(r: DomainRule, ips: seq<ResolvedIP>): seq<Issue> {
    if ips == [] then []
    else AddressesIssues(r, ips[..|ips| - 1])
         + (if ips[|ips| - 1].prefix.None? then [Issue(DNSFailed, None, r.host, r.id, NoSubject)] else [])
  }

  function DNSErrorOf(inp: PlanInput, r: DomainRule): string {
    if r.id in inp.dnsErrors then Trim(inp.dnsErrors[r.id]) else ""
  }

  function ResolvedOf(inp: PlanInput, r: DomainRule): seq<ResolvedIP> {
    if r.id in inp.resolved then inp.resolved[r.id] else []
  }

  function RuleItems(inp: PlanInput, r: DomainRule): seq<Item> {
    if DNSErrorOf(inp, r) != "" then [] else AddressesItems(inp.cloudType, r, ResolvedOf(inp, r))
  }

  function RuleIssues(inp: PlanInput, r: DomainRule): seq<Issue> {
    if DNSErrorOf(inp, r) != "" then [Issue(DNSFailed, None, r.host, r.id, Says(DNSErrorOf(inp, r)))]
    else if ResolvedOf(inp, r) == [] then [Issue(DNSEmpty, None, r.host, r.id, NoSubject)]
    else AddressesIssues(r, ResolvedOf(inp, r))
  }

  function AllItems(inp: PlanInput, rules: seq<DomainRule>): seq<Item> {
    if rules == [] then [] else AllItems(inp, rules[..|rules| - 1]) + RuleItems(inp, rules[|rules| - 1])
  }

  function AllDNSIssues(inp: PlanInput, rules: seq<DomainRule>): seq<Issue> {
    if rules == [] then [] else AllDNSIssues(inp, rules[..|rules| - 1]) + RuleIssues(inp, rules[|rules| - 1])
  }

  predicate RuleIDLe(a: DomainRule, b: DomainRule) { a.id <= b.id }

  function SortedRules(inp: PlanInput): seq<DomainRule> { Sort(RuleIDLe, inp.rules) }

  // ------------------------------------------------- 1) expectations, merged

  function FindKey(desired: seq<PlannedRule>, k: Key): (i: nat)
    ensures i <= |desired|
    ensures i < |desired| ==> desired[i].key == k
    ensures forall j :: 0 <= j < i ==> desired[j].key != k
  {
    if desired == [] then 0
    else
      var i := FindKey(desired[..|desired| - 1], k);
      if i < |desired| - 1 then i
      else if desired[|desired| - 1].key == k then |desired| - 1 else |desired|
  }

  function AppendUnique<T(==)>(list: seq<T>, v: T): seq<T> {
    if v in list then list else list + [v]
  }

  function FreshEntry(it: Item): PlannedRule {
    PlannedRule(it.key, Trim(it.rule.comment), "", [it.rule.id], [it.rule.host], it.reason.None?, it.action)
  }

  function MergedEntry(cur: PlannedRule, it: Item): PlannedRule {
    cur.(ruleIDs := AppendUnique(cur.ruleIDs, it.rule.id),
         domains := AppendUnique(cur.domains, it.rule.host),
         comment := if cur.comment == "" then Trim(it.rule.comment) else cur.comment)
  }

  function Merge(desired: seq<PlannedRule>, it: Item): seq<PlannedRule> {
    var i := FindKey(desired, it.key);
    if i < |desired| then desired[i := MergedEntry(desired[i], it)] else desired + [FreshEntry(it)]
  }

  predicate Noted(unsupported: seq<Issue>, code: IssueCode, k: Key) {
    exists u :: u in unsupported && u.code == code && IssueKeyText(u) == KeyString(k)
  }

  function Note(unsupported: seq<Issue>, it: Item): seq<Issue> {
    if it.reason.None? || Noted(unsupported, it.reason.value, it.key) then unsupported
    else unsupported + [Issue(it.reason.value, Some(it.key), it.rule.host, it.rule.id, NoSubject)]
  }

  datatype Merged = Merged(desired: seq<PlannedRule>, unsupported: seq<Issue>)

  function Step(m: Merged, it: Item): Merged {
    Merged(Merge(m.desired, it), Note(m.unsupported, it))
  }

  function Fold(m: Merged, items: seq<Item>): Merged {
    if items == [] then m else Step(Fold(m, items[..|items| - 1]), items[|items| - 1])
  }

  const NOTHING := Merged([], [])

  function Rendered(inp: PlanInput, p: PlannedRule): PlannedRule {
    var description := RenderDescription(inp.cloudType, inp.tag, p.comment);
    p.(description := description,
       action := p.action.(description := description),
       ruleIDs := Sort(IntLe, p.ruleIDs),
       domains := Sort(StringLe, p.domains))
  }

  function RenderedAll(inp: PlanInput, ps: seq<PlannedRule>): (r: seq<PlannedRule>)
    ensures |r| == |ps|
    ensures forall i :: 0 <= i < |ps| ==> r[i] == Rendered(inp, ps[i])
  {
    seq(|ps|, i requires 0 <= i < |ps| => Rendered(inp, ps[i]))
  }

  predicate PlannedLe(a: PlannedRule, b: PlannedRule) { KeyLe(a.key, b.key) }

  function MergedOf(inp: PlanInput): Merged { Fold(NOTHING, AllItems(inp, SortedRules(inp))) }

  function DesiredOf(inp: PlanInput): seq<PlannedRule> {
    Sort(PlannedLe, RenderedAll(inp, MergedOf(inp).desired))
  }

  // ------------------------------------------------------ 2) the snapshot index

  predicate Judged(r: RuleInfo) { SnapshotRuleKeys(r).Some? }

  /** A rule the tool may manage: it can be judged and its description carries the TAG. */
  predicate OwnedEntry(tag: string, r: RuleInfo) { Judged(r) && IsOwned(r.description, tag) }

  function Copies(keys: seq<Key>, k: Key, r: RuleInfo): seq<RuleInfo> {
    if keys == [] then []
    else Copies(keys[..|keys| - 1], k, r) + (if keys[|keys| - 1] == k then [r] else [])
  }

  /** There are copies exactly of a rule that holds the key. */
  lemma {:induction false} CopiesExact(keys: seq<Key>, k: Key, r: RuleInfo)
    ensures Copies(keys, k, r) == [] <==> k !in keys
    ensures forall x :: x in Copies(keys, k, r) ==> x == r
  {
    if keys != [] {
      var init, last := keys[..|keys| - 1], keys[|keys| - 1];
      assert forall x :: x in keys <==> x in init || x == last;
      CopiesExact(init, k, r);
    }
  }

  /** The multi-valued index: every owned (or external) rule holding key `k`, once per holding. */
  function Holders(rules: seq<RuleInfo>, tag: string, owned: bool, k: Key): seq<RuleInfo> {
    if rules == [] then []
    else
      var r := rules[|rules| - 1];
      Holders(rules[..|rules| - 1], tag, owned, k)
      + (if IsOwned(r.description, tag) == owned then Copies(KeysOf(r), k, r) else [])
  }

  function TupleOf(k: Key): string {
    FamilyName(k.family) + "|" + (k.cidr + "|" + (k.protocol + "|" + k.port))
  }

  function KeyTuples(seen: seq<string>, keys: seq<Key>): seq<string> {
    if keys == [] then seen else AppendUnique(KeyTuples(seen, keys[..|keys| - 1]), TupleOf(keys[|keys| - 1]))
  }

  /** The distinct (family, CIDR, protocol, port) texts of a snapshot. */
  function Tuples(rules: seq<RuleInfo>): seq<string> {
    if rules == [] then [] else KeyTuples(Tuples(rules[..|rules| - 1]), KeysOf(rules[|rules| - 1]))
  }

  predicate TupleHas(rules: seq<RuleInfo>, tuple: string, action: string) {
    exists r :: r in rules && exists k :: k in KeysOf(r) && TupleOf(k) == tuple && k.action == action
  }

  predicate Opposed(rules: seq<RuleInfo>, tuple: string) {
    TupleHas(rules, tuple, "ACCEPT") && TupleHas(rules, tuple, "DROP")
  }

  function InvalidIssue(r: RuleInfo): Issue { Issue(SnapshotRuleInvalid, None, "", 0, Described(r)) }

  function InvalidIssues(rules: seq<RuleInfo>): seq<Issue> {
    if rules == [] then []
    else InvalidIssues(rules[..|rules| - 1])
         + (if Judged(rules[|rules| - 1]) then [] else [InvalidIssue(rules[|rules| - 1])])
  }

  function OpposedIssues(rules: seq<RuleInfo>, tuples: seq<string>): seq<Issue> {
    if tuples == [] then []
    else
      var t := tuples[|tuples| - 1];
      OpposedIssues(rules, tuples[..|tuples| - 1])
      + (if Opposed(rules, t) then [Issue(OppositeAction, None, "", 0, Says(t))] else [])
  }

  predicate Tencent(ct: CloudType) { ct == TCLighthouse || ct == TCCVM }

  function RevisionIssues(inp: PlanInput): seq<Issue> {
    if Tencent(inp.cloudType) && Trim(inp.snapshot.revision) == "" then [Issue(SnapshotIncomplete, None, "", 0, NoSubject)]
    else []
  }

  function ConflictsOf(inp: PlanInput): seq<Issue> {
    InvalidIssues(inp.snapshot.rules)
    + OpposedIssues(inp.snapshot.rules, Sort(StringLe, Tuples(inp.snapshot.rules)))
    + RevisionIssues(inp)
  }

  // ---------------------------------------------------------------- 3) coverage

  /** Some judged rule of the snapshot, owned or not, holds the key. */
  predicate Covers(rules: seq<RuleInfo>, k: Key) {
    exists r :: r in rules && k in KeysOf(r)
  }

  function MatchesOf(rules: seq<RuleInfo>, tag: string, desired: seq<PlannedRule>, owned: bool): seq<PlanMatch> {
    if desired == [] then []
    else
      var d := desired[|desired| - 1];
      var holders := Holders(rules, tag, owned, d.key);
      MatchesOf(rules, tag, desired[..|desired| - 1], owned)
      + (if holders != [] && (owned || Holders(rules, tag, true, d.key) == [])
         then [PlanMatch(d.key, holders[0].description, holders)] else [])
  }

  function ToAddOf(rules: seq<RuleInfo>, desired: seq<PlannedRule>): seq<RuleAction> {
    if desired == [] then []
    else
      var d := desired[|desired| - 1];
      ToAddOf(rules, desired[..|desired| - 1]) + (if d.implementable && !Covers(rules, d.key) then [d.action] else [])
  }

  predicate CoverageReadyOf(inp: PlanInput, desired: seq<PlannedRule>) {
    && (exists d :: d in desired && d.implementable)
    && (forall d :: d in desired && d.implementable ==> Covers(inp.snapshot.rules, d.key))
    && !inp.addStateUnknown
  }

  // ---------------------------------------------------------------- 4) candidates

  function DesiredKeys(desired: seq<PlannedRule>): set<Key> {
    set d | d in desired :: d.key
  }

  /** An owned rule none of whose keys is expected any more. */
  predicate IsCandidate(tag: string, desiredKeys: set<Key>, r: RuleInfo) {
    OwnedEntry(tag, r) && KeysOf(r) != [] && forall k :: k in KeysOf(r) ==> k !in desiredKeys
  }

  function CandidatesOf(rules: seq<RuleInfo>, tag: string, desiredKeys: set<Key>): seq<RuleInfo> {
    if rules == [] then []
    else CandidatesOf(rules[..|rules| - 1], tag, desiredKeys)
         + (if IsCandidate(tag, desiredKeys, rules[|rules| - 1]) then [rules[|rules| - 1]] else [])
  }

  // ------------------------------------------------------------- 5) cleanup gate

  function CodesSeen(codes: seq<IssueCode>, issues: seq<Issue>): seq<IssueCode> {
    if issues == [] then codes else AppendUnique(CodesSeen(codes, issues[..|issues| - 1]), issues[|issues| - 1].code)
  }

  predicate CodeLe(a: IssueCode, b: IssueCode) { StringLe(CodeName(a), CodeName(b)) }

  function DistinctCodes(issues: seq<Issue>): seq<IssueCode> { Sort(CodeLe, CodesSeen([], issues)) }

  function CodeIssues(codes: seq<IssueCode>): (issues: seq<Issue>)
    ensures |issues| == |codes|
    ensures forall i :: 0 <= i < |codes| ==> issues[i] == Issue(codes[i], None, "", 0, NoSubject)
  {
    seq(|codes|, i requires 0 <= i < |codes| => Issue(codes[i], None, "", 0, NoSubject))
  }

  function GateIssues(desired: seq<PlannedRule>, dnsErrors: seq<Issue>, unsupported: seq<Issue>,
                      conflicts: seq<Issue>, ready: bool): seq<Issue> {
    (if desired == [] then [Issue(DesiredEmpty, None, "", 0, NoSubject)] else [])
    + (if dnsErrors != [] then [Issue(DNSFailed, None, "", 0, Counts(|dnsErrors|))] else [])
    + CodeIssues(DistinctCodes(unsupported))
    + CodeIssues(DistinctCodes(conflicts))
    + (if !ready then [Issue(CoverageNotReady, None, "", 0, NoSubject)] else [])
  }

  /** Why a candidate cannot be addressed without ambiguity on this snapshot. */
  function LocatorProblem(ct: CloudType, rules: seq<RuleInfo>, tag: string, r: RuleInfo): Option<IssueCode> {
    match ct
    case TCLighthouse =>
      if exists k :: k in KeysOf(r) && (|Holders(rules, tag, true, k)| != 1 || |Holders(rules, tag, false, k)| != 0)
      then Some(OwnedKeyAmbiguous) else None
    case TCCVM => if ParseInt64(Trim(r.policyIndex)).None? then Some(OwnedLocatorMissing) else None
    case _ => if Trim(r.ruleID) == "" then Some(OwnedLocatorMissing) else None
  }

  function LocatorIssue(code: IssueCode, r: RuleInfo): Issue {
    Issue(code, if KeysOf(r) != [] then Some(KeysOf(r)[0]) else None, "", 0, Described(r))
  }

  function LocatorIssues(inp: PlanInput, candidates: seq<RuleInfo>): seq<Issue> {
    if candidates == [] then []
    else
      var r := candidates[|candidates| - 1];
      LocatorIssues(inp, candidates[..|candidates| - 1])
      + (match LocatorProblem(inp.cloudType, inp.snapshot.rules, inp.tag, r)
         case None => []
         case Some(code) => [LocatorIssue(code, r)])
  }

  function Locatable(inp: PlanInput, candidates: seq<RuleInfo>): seq<RuleInfo> {
    if candidates == [] then []
    else
      var r := candidates[|candidates| - 1];
      Locatable(inp, candidates[..|candidates| - 1])
      + (if LocatorProblem(inp.cloudType, inp.snapshot.rules, inp.tag, r).None? then [r] else [])
  }

  /** The complete plan. */
  function PlanSpec(inp: PlanInput): TargetPlan {
    var rules := inp.snapshot.rules;
    var desired := DesiredOf(inp);
    var dnsErrors := AllDNSIssues(inp, SortedRules(inp));
    var unsupported := MergedOf(inp).unsupported;
    var conflicts := ConflictsOf(inp);
    var ready := CoverageReadyOf(inp, desired);
    var candidates := CandidatesOf(rules, inp.tag, DesiredKeys(desired));
    var gate := GateIssues(desired, dnsErrors, unsupported, conflicts, ready);
    TargetPlan(desired,
               MatchesOf(rules, inp.tag, desired, true), MatchesOf(rules, inp.tag, desired, false),
               ToAddOf(rules, desired),
               candidates,
               if gate == [] then Locatable(inp, candidates) else [],
               Sort(IssueLe, gate + LocatorIssues(inp, candidates)),
               Sort(IssueLe, dnsErrors), Sort(IssueLe, unsupported), Sort(IssueLe, conflicts),
               ready)
  }
}
