/** What a target's rules ask for, read off the input itself: which keys are desired, which of them a platform
    can express, and where DNS fell short. The planner's own unrolling of rules is not mentioned in any of
    these statements. */
module Wishes {
  import opened Text
  import opened Tag
  import opened Ports
  import opened PortRoundTrip
  import opened Keys
  import opened Plan
  import opened PlanFacts

  // --------------------------------------------------------------------- one wish

  /** The protocols a rule is written out in: TCP+UDP is one word on SWAS and two words elsewhere. */
  predicate WordOf(ct: CloudType, protocol: string, word: string) {
    if Upper(protocol) == "TCP+UDP" && ct != AliSWAS then word == "TCP" || word == "UDP" else word == protocol
  }

  /** An item of a port list: ALL for a blank list or for ALL itself, else a non-blank part between commas. */
  ghost predicate PortItem(ports: string, item: string) {
    if Trim(ports) == "" || Upper(Trim(ports)) == "ALL" then item == "ALL"
    else item != "" && exists part :: part in Split(Trim(ports), ',') && item == Trim(part)
  }

  /** The port text sent for a list: one of its items in wire form, the raw text where it has none. */
  ghost predicate PortText(ct: CloudType, word: string, ports: string, text: string) {
    || (exists item :: PortItem(ports, item) && text == WireItem(ct, word, item))
    || (text == ports && forall item :: !PortItem(ports, item))
  }

  /** DNS answered for a rule: no error, and this address, which is one. */
  predicate Answered(inp: PlanInput, r: DomainRule, ip: ResolvedIP) {
    && (r.id in inp.dnsErrors ==> Trim(inp.dnsErrors[r.id]) == "")
    && r.id in inp.resolved && ip in inp.resolved[r.id] && ip.prefix.Some?
  }

  /** The key a rule asks for on one address, protocol and port. */
  function KeyFor(r: DomainRule, ip: ResolvedIP, word: string, text: string): Key
    requires ip.prefix.Some?
  {
    Key(if ip.isIPv6 then IPv6 else IPv4, ip.prefix.value, CanonicalProtocol(word), CanonicalPort(CanonicalProtocol(word), text),
        Upper(Trim(r.action)))
  }

  ghost predicate AsksWith(inp: PlanInput, r: DomainRule, k: Key, ip: ResolvedIP, word: string, text: string) {
    Answered(inp, r, ip) && WordOf(inp.cloudType, r.protocol, word) && PortText(inp.cloudType, word, r.ports, text)
    && k == KeyFor(r, ip, word, text)
  }

  /** A rule asks for a key. */
  ghost predicate Asks(inp: PlanInput, r: DomainRule, k: Key) {
    exists ip, word, text :: AsksWith(inp, r, k, ip, word, text)
  }

  ghost predicate AskingRule(inp: PlanInput, r: DomainRule, k: Key) { r in inp.rules && Asks(inp, r, k) }

  // ------------------------------------------------- the unrolled expectations

  lemma {:induction false} NonBlankExact(parts: seq<string>, p: string)
    ensures p in NonBlankParts(parts) <==> p != "" && exists q :: q in parts && p == Trim(q)
  {
    hide Trim;
    if parts != [] {
      var (init, last) := (parts[..|parts| - 1], parts[|parts| - 1]);
      assert forall q :: q in parts <==> q in init || q == last;
      NonBlankExact(init, p);
    }
  }

  /** The items of a port list are exactly those. */
  lemma ParsedExactly(ports: string, item: string)
    ensures item in ParseSpec(ports) <==> PortItem(ports, item)
  {
    hide Trim, Split, Upper;
    assert Upper("ALL") == "ALL" by { PlainIsFixed("ALL"); }
    NonBlankExact(Split(Trim(ports), ','), item);
  }

  lemma TextsExactly(ct: CloudType, word: string, ports: string, text: string)
    ensures text in PlannedPortsSpec(ct, word, ports) <==> PortText(ct, word, ports, text)
  {
    hide ParseSpec, WireItem, PortItem;
    var (items, wire) := (ParseSpec(ports), PlannedPortsSpec(ct, word, ports));
    forall item ensures item in items <==> PortItem(ports, item) { ParsedExactly(ports, item); }
    if items == [] {
      assert forall item :: item !in items;
    } else {
      assert PortItem(ports, items[0]) by { assert items[0] in items; }
      if text in wire {
        var i :| 0 <= i < |wire| && wire[i] == text;
        assert items[i] in items;
      }
      if item :| PortItem(ports, item) && text == WireItem(ct, word, item) {
        var i :| 0 <= i < |items| && items[i] == item;
        assert wire[i] == text;
      }
    }
  }

  lemma {:induction false} PortItemsExactly(ct: CloudType, r: DomainRule, family: Family, cidr: string, word: string, wire: seq<string>, it: Item)
    ensures it in PortItems(ct, r, family, cidr, word, wire) <==> exists text :: text in wire && it == ItemOf(ct, r, family, cidr, word, text)
  {
    hide ItemOf;
    if wire != [] {
      var (init, last) := (wire[..|wire| - 1], wire[|wire| - 1]);
      assert forall w :: w in wire <==> w in init || w == last;
      PortItemsExactly(ct, r, family, cidr, word, init, it);
    }
  }

  ghost predicate MadeFrom(ct: CloudType, r: DomainRule, family: Family, cidr: string, word: string, it: Item) {
    exists text :: PortText(ct, word, r.ports, text) && it == ItemOf(ct, r, family, cidr, word, text)
  }

  lemma {:induction false} ProtocolItemsExactly(ct: CloudType, r: DomainRule, family: Family, cidr: string, words: seq<string>, it: Item)
    ensures it in ProtocolItems(ct, r, family, cidr, words) <==> exists word :: word in words && MadeFrom(ct, r, family, cidr, word, it)
  {
    hide ItemOf, PlannedPortsSpec, PortText;
    if words != [] {
      var (init, last) := (words[..|words| - 1], words[|words| - 1]);
      assert forall w :: w in words <==> w in init || w == last;
      ProtocolItemsExactly(ct, r, family, cidr, init, it);
      PortItemsExactly(ct, r, family, cidr, last, PlannedPortsSpec(ct, last, r.ports), it);
      forall text ensures text in PlannedPortsSpec(ct, last, r.ports) <==> PortText(ct, last, r.ports, text) {
        TextsExactly(ct, last, r.ports, text);
      }
      var here := PortItems(ct, r, family, cidr, last, PlannedPortsSpec(ct, last, r.ports));
      InConcat(ProtocolItems(ct, r, family, cidr, init), here, it);
      assert it in here <==> MadeFrom(ct, r, family, cidr, last, it);
    }
  }

  lemma WordsExactly(ct: CloudType, r: DomainRule, word: string)
    ensures word in ProtocolsOf(ct, r) <==> WordOf(ct, r.protocol, word)
  {
    hide Upper;
    assert Upper("TCP+UDP") == "TCP+UDP" by { PlainIsFixed("TCP+UDP"); }
  }

  ghost predicate MadeOn(ct: CloudType, r: DomainRule, ip: ResolvedIP, word: string, it: Item) {
    && ip.prefix.Some? && WordOf(ct, r.protocol, word)
    && MadeFrom(ct, r, if ip.isIPv6 then IPv6 else IPv4, ip.prefix.value, word, it)
  }

  lemma AddressItemsExactly(ct: CloudType, r: DomainRule, ip: ResolvedIP, it: Item)
    ensures it in AddressItems(ct, r, ip) <==> exists word :: MadeOn(ct, r, ip, word, it)
  {
    hide MadeFrom, WordOf, ProtocolsOf, ProtocolItems;
    if ip.prefix.Some? {
      ProtocolItemsExactly(ct, r, FamilyOf(ip), ip.prefix.value, ProtocolsOf(ct, r), it);
      forall word ensures word in ProtocolsOf(ct, r) <==> WordOf(ct, r.protocol, word) { WordsExactly(ct, r, word); }
      if it in AddressItems(ct, r, ip) {
        var word :| word in ProtocolsOf(ct, r) && MadeFrom(ct, r, FamilyOf(ip), ip.prefix.value, word, it);
        assert MadeOn(ct, r, ip, word, it);
      }
    }
  }

  lemma {:induction false} AddressesItemsExactly(ct: CloudType, r: DomainRule, ips: seq<ResolvedIP>, it: Item)
    ensures it in AddressesItems(ct, r, ips) <==> exists ip, word :: ip in ips && MadeOn(ct, r, ip, word, it)
  {
    hide MadeOn, AddressItems;
    if ips != [] {
      var (init, last) := (ips[..|ips| - 1], ips[|ips| - 1]);
      assert forall x :: x in ips <==> x in init || x == last;
      AddressesItemsExactly(ct, r, init, it);
      AddressItemsExactly(ct, r, last, it);
      InConcat(AddressesItems(ct, r, init), AddressItems(ct, r, last), it);
    }
  }

  /** An unrolled expectation comes from a rule and an address it was answered with. */
  ghost predicate MadeBy(inp: PlanInput, r: DomainRule, ip: ResolvedIP, word: string, it: Item) {
    Answered(inp, r, ip) && MadeOn(inp.cloudType, r, ip, word, it)
  }

  lemma RuleItemsExactly(inp: PlanInput, r: DomainRule, it: Item)
    ensures it in RuleItems(inp, r) <==> exists ip, word :: MadeBy(inp, r, ip, word, it)
  {
    hide MadeOn, Trim, AddressesItems;
    AddressesItemsExactly(inp.cloudType, r, ResolvedOf(inp, r), it);
    if it in RuleItems(inp, r) {
      var ip, word :| ip in ResolvedOf(inp, r) && MadeOn(inp.cloudType, r, ip, word, it);
      assert ip.prefix.Some? by { MadeHasPrefix(inp.cloudType, r, ip, word, it); }
      assert MadeBy(inp, r, ip, word, it);
    }
  }

  lemma MadeHasPrefix(ct: CloudType, r: DomainRule, ip: ResolvedIP, word: string, it: Item)
    requires MadeOn(ct, r, ip, word, it)
    ensures ip.prefix.Some?
  {
  }

  lemma {:induction false} AllItemsExactly(inp: PlanInput, rules: seq<DomainRule>, it: Item)
    ensures it in AllItems(inp, rules) <==> exists r, ip, word :: r in rules && MadeBy(inp, r, ip, word, it)
  {
    hide MadeBy, RuleItems;
    if rules != [] {
      var (init, last) := (rules[..|rules| - 1], rules[|rules| - 1]);
      assert forall r :: r in rules <==> r in init || r == last;
      AllItemsExactly(inp, init, it);
      RuleItemsExactly(inp, last, it);
    }
  }

  lemma MadeAsks(inp: PlanInput, r: DomainRule, ip: ResolvedIP, word: string, it: Item)
    requires MadeBy(inp, r, ip, word, it)
    ensures it.rule == r && Asks(inp, r, it.key)
  {
    hide CanonicalPort, CanonicalProtocol, Upper, Trim, WordOf, PortText, UnsupportedReason;
    var text :| PortText(inp.cloudType, word, r.ports, text)
                && it == ItemOf(inp.cloudType, r, if ip.isIPv6 then IPv6 else IPv4, ip.prefix.value, word, text);
    assert AsksWith(inp, r, it.key, ip, word, text);
  }

  lemma AsksMakes(inp: PlanInput, r: DomainRule, k: Key) returns (ip: ResolvedIP, word: string, it: Item)
    requires Asks(inp, r, k)
    ensures MadeBy(inp, r, ip, word, it) && it.key == k && it.rule == r
  {
    hide CanonicalPort, CanonicalProtocol, Upper, Trim, WordOf, PortText, UnsupportedReason;
    var text;
    ip, word, text :| AsksWith(inp, r, k, ip, word, text);
    it := ItemOf(inp.cloudType, r, if ip.isIPv6 then IPv6 else IPv4, ip.prefix.value, word, text);
    assert MadeFrom(inp.cloudType, r, if ip.isIPv6 then IPv6 else IPv4, ip.prefix.value, word, it);
  }

  /** The rules that ask for a key are those of the expectations with it. */
  lemma ItemsAskExactly(inp: PlanInput, r: DomainRule, k: Key)
    ensures (r in inp.rules && Asks(inp, r, k)) <==> exists it :: it in AllItems(inp, SortedRules(inp)) && it.key == k && it.rule == r
  {
    hide Asks, MadeBy, AllItems, Sort;
    var items := AllItems(inp, SortedRules(inp));
    SortedElements(RuleIDLe, inp.rules);
    if r in inp.rules && Asks(inp, r, k) {
      var ip, word, it := AsksMakes(inp, r, k);
      AllItemsExactly(inp, SortedRules(inp), it);
    }
    if it :| it in items && it.key == k && it.rule == r {
      AllItemsExactly(inp, SortedRules(inp), it);
      var r', ip, word :| r' in SortedRules(inp) && MadeBy(inp, r', ip, word, it);
      MadeAsks(inp, r', ip, word, it);
    }
  }

  // ----------------------------------------------------------------- the theorems

  /** The desired keys are exactly the keys some rule asks for: for every address it was answered with, every
      protocol it is written out in and every item of its port list. */
  lemma DesiredAreWishes(inp: PlanInput, k: Key)
    ensures k in DesiredKeys(DesiredOf(inp)) <==> exists r :: AskingRule(inp, r, k)
  {
    hide DesiredOf, AllItems, Asks, DistinctKeys, SortedBy, SortedRules;
    var items := AllItems(inp, SortedRules(inp));
    DesiredIsExact(inp);
    if k in DesiredKeys(DesiredOf(inp)) {
      var d :| d in DesiredOf(inp) && d.key == k;
      assert DesiredFrom(inp, d);
      var it :| it in items && it.key == k;
      ItemsAskExactly(inp, it.rule, k);
      assert AskingRule(inp, it.rule, k);
    }
    if r :| AskingRule(inp, r, k) {
      ItemsAskExactly(inp, r, k);
      var it :| it in items && it.key == k && it.rule == r;
      assert HasItem(items, k);
    }
  }

  /** What a platform can express: SWAS neither IPv6 nor DROP, ECS no ICMP over IPv6, the others everything. */
  predicate Expressible(ct: CloudType, k: Key) {
    match ct
    case AliSWAS => k.family == IPv4 && k.action != "DROP"
    case AliECS => k.family == IPv4 || k.protocol != "ICMP"
    case TCLighthouse => true
    case TCCVM => true
  }

  lemma ReasonExactly(ct: CloudType, it: Item)
    requires WellMade(ct, it)
    ensures it.reason.None? <==> Expressible(ct, it.key)
  {
    hide CanonicalPort, CanonicalProtocol, Upper, Trim, ProtocolsOf, PlannedPortsSpec, RuleAddress;
  }

  /** A desired entry is implementable exactly when its platform can express its key. */
  lemma ImplementableExactly(inp: PlanInput, d: PlannedRule)
    requires d in DesiredOf(inp)
    ensures d.implementable <==> Expressible(inp.cloudType, d.key)
  {
    hide DesiredOf, AllItems, WellMade;
    DesiredEntryFits(inp, d);
    var it :| it in AllItems(inp, SortedRules(inp)) && it.key == d.key && WellMade(inp.cloudType, it) && d.implementable == it.reason.None?;
    ReasonExactly(inp.cloudType, it);
  }

  ghost predicate NotedBy(items: seq<Item>, u: Issue) { exists it :: it in items && it.reason.Some? && NoteOf(it, u) }

  ghost predicate AllNoted(items: seq<Item>, us: seq<Issue>) {
    && (forall u :: u in us ==> NotedBy(items, u))
    && (forall it :: it in items && it.reason.Some? ==> Noted(us, it.reason.value, it.key))
  }

  lemma {:induction false} NotedFrom(items: seq<Item>)
    ensures AllNoted(items, Fold(NOTHING, items).unsupported)
  {
    hide Merge, AllNoted, Note;
    if items == [] {
      NothingNoted();
    } else {
      NotedFrom(items[..|items| - 1]);
      NoteStep(items, Fold(NOTHING, items[..|items| - 1]).unsupported);
    }
  }

  lemma NothingNoted()
    ensures AllNoted([], [])
  {
  }

  lemma NoteStep(items: seq<Item>, was: seq<Issue>)
    requires items != [] && AllNoted(items[..|items| - 1], was)
    ensures AllNoted(items, Note(was, items[|items| - 1]))
  {
    hide Noted, NotedBy, Note;
    var (init, last) := (items[..|items| - 1], items[|items| - 1]);
    var us := Note(was, last);
    NoteGrows(was, last);
    assert forall it :: it in items <==> it in init || it == last;
    forall u | u in us ensures NotedBy(items, u) { NotedByMore(items, was, u); }
    forall it | it in items && it.reason.Some? ensures Noted(us, it.reason.value, it.key) {
      if it in init { StillNoted(was, us, it.reason.value, it.key); }
    }
  }

  lemma NoteGrows(was: seq<Issue>, it: Item)
    ensures was <= Note(was, it) && (it.reason.Some? ==> Noted(Note(was, it), it.reason.value, it.key))
  {
    hide KeyString;
    var us := Note(was, it);
    if us != was { assert us[|us| - 1] in us; }
  }

  lemma NotedByMore(items: seq<Item>, was: seq<Issue>, u: Issue)
    requires items != [] && u in Note(was, items[|items| - 1]) && (u in was ==> NotedBy(items[..|items| - 1], u))
    ensures NotedBy(items, u)
  {
    hide Noted;
    var (init, last) := (items[..|items| - 1], items[|items| - 1]);
    if u in was {
      var it :| it in init && it.reason.Some? && NoteOf(it, u);
      assert it in items;
    } else {
      assert last in items && NoteOf(last, u);
    }
  }

  lemma StillNoted(was: seq<Issue>, us: seq<Issue>, code: IssueCode, k: Key)
    requires was <= us && Noted(was, code, k)
    ensures Noted(us, code, k)
  {
    hide KeyString;
    assert forall u :: u in was ==> u in us;
  }

  ghost predicate NoteOf(it: Item, u: Issue)
    requires it.reason.Some?
  {
    u == Issue(it.reason.value, Some(it.key), it.rule.host, it.rule.id, NoSubject)
  }

  /** Why a platform cannot express a key. */
  function Limit(ct: CloudType, k: Key): IssueCode {
    if ct == AliECS then UnsupportedICMPv6 else if k.family == IPv6 then UnsupportedIPv6 else UnsupportedAction
  }

  /** An unsupported issue is about a desired key its platform cannot express, on behalf of a rule that asks
      for it. */
  ghost predicate UnsupportedFits(inp: PlanInput, u: Issue) {
    && u.key.Some? && u.subject == NoSubject
    && exists r :: AskingRule(inp, r, u.key.value) && u.domain == r.host && u.ruleID == r.id
         && !Expressible(inp.cloudType, u.key.value) && u.code == Limit(inp.cloudType, u.key.value)
  }

  /** Every desired key that cannot be expressed is reported with its reason, nothing else is, and none means
      that every desired entry is implementable. */
  lemma UnsupportedExactly(inp: PlanInput)
    ensures forall u :: u in PlanSpec(inp).unsupported ==> UnsupportedFits(inp, u)
    ensures forall d :: d in DesiredOf(inp) && !Expressible(inp.cloudType, d.key) ==>
              Noted(PlanSpec(inp).unsupported, Limit(inp.cloudType, d.key), d.key)
    ensures PlanSpec(inp).unsupported == [] <==> forall d :: d in DesiredOf(inp) ==> d.implementable
  {
    hide DesiredOf, AllDNSIssues, ConflictsOf, CoverageReadyOf, AllItems, Fold, GateIssues, CandidatesOf, Locatable, LocatorIssues, ToAddOf,
         MatchesOf, Sort, WellMade, SortedRules, Asks, KeyString, Expressible, DistinctKeys, SortedBy;
    var items := AllItems(inp, SortedRules(inp));
    var (us, list) := (MergedOf(inp).unsupported, PlanSpec(inp).unsupported);
    SortedElements(IssueLe, us);
    NotedFrom(items);
    AllItemsWellMade(inp, SortedRules(inp));
    DesiredIsExact(inp);
    forall u | u in list ensures UnsupportedFits(inp, u) {
      assert u in us && NotedBy(items, u);
      var it :| it in items && it.reason.Some? && NoteOf(it, u);
      ReasonExactly(inp.cloudType, it);
      ItemsAskExactly(inp, it.rule, it.key);
      assert AskingRule(inp, it.rule, it.key);
      NoteIsLimit(inp.cloudType, it);
    }
    forall d | d in DesiredOf(inp) ensures d.implementable <==> Expressible(inp.cloudType, d.key) { ImplementableExactly(inp, d); }
    forall d | d in DesiredOf(inp) && !Expressible(inp.cloudType, d.key) ensures Noted(list, Limit(inp.cloudType, d.key), d.key) {
      assert DesiredFrom(inp, d);
      var it :| it in items && it.key == d.key;
      ReasonExactly(inp.cloudType, it);
      NoteIsLimit(inp.cloudType, it);
    }
    if list != [] {
      var u := list[0];
      assert u in list && UnsupportedFits(inp, u);
      var r :| AskingRule(inp, r, u.key.value) && !Expressible(inp.cloudType, u.key.value);
      DesiredAreWishes(inp, u.key.value);
    }
  }

  lemma NoteIsLimit(ct: CloudType, it: Item)
    requires WellMade(ct, it) && it.reason.Some?
    ensures it.reason.value == Limit(ct, it.key)
  {
    hide CanonicalPort, CanonicalProtocol, Upper, Trim, ProtocolsOf, PlannedPortsSpec, RuleAddress;
  }

  // ---------------------------------------------------------- who contributes to an entry

  lemma {:induction false} RuleIDsExactly(items: seq<Item>, k: Key, id: int)
    ensures id in RuleIDs(items, k) <==> exists it :: it in items && it.key == k && it.rule.id == id
    ensures Distinct(RuleIDs(items, k))
  {
    if items != [] {
      var (init, last) := (items[..|items| - 1], items[|items| - 1]);
      assert forall it :: it in items <==> it in init || it == last;
      RuleIDsExactly(init, k, id);
    }
  }

  lemma {:induction false} HostsExactly(items: seq<Item>, k: Key, host: string)
    ensures host in Hosts(items, k) <==> exists it :: it in items && it.key == k && it.rule.host == host
    ensures Distinct(Hosts(items, k))
  {
    if items != [] {
      var (init, last) := (items[..|items| - 1], items[|items| - 1]);
      assert forall it :: it in items <==> it in init || it == last;
      HostsExactly(init, k, host);
    }
  }

  ghost predicate ByID(items: seq<Item>) { forall i, j :: 0 <= i < j < |items| ==> items[i].rule.id <= items[j].rule.id }

  lemma {:induction false} ItemsOfRule(inp: PlanInput, r: DomainRule)
    ensures forall it :: it in RuleItems(inp, r) ==> it.rule == r
  {
    hide AddressesItems, Trim, WellMade;
    AddressesItemsWellMade(inp.cloudType, r, ResolvedOf(inp, r));
  }

  lemma {:induction false} ItemsAreByID(inp: PlanInput, rules: seq<DomainRule>)
    requires SortedBy(RuleIDLe, rules)
    ensures ByID(AllItems(inp, rules))
  {
    hide RuleItems, WellMade;
    if rules != [] {
      var (init, last) := (rules[..|rules| - 1], rules[|rules| - 1]);
      ItemsAreByID(inp, init);
      AllItemsWellMade(inp, init);
      ItemsOfRule(inp, last);
      var (before, here) := (AllItems(inp, init), RuleItems(inp, last));
      forall it | it in before ensures it.rule.id <= last.id {
        var i :| 0 <= i < |init| && init[i] == it.rule;
        assert RuleIDLe(rules[i], rules[|rules| - 1]);
      }
      assert forall i :: 0 <= i < |before| ==> before[i] in before;
      assert forall i :: 0 <= i < |here| ==> here[i] in here;
    }
  }

  lemma SortedByID(inp: PlanInput)
    ensures SortedBy(RuleIDLe, SortedRules(inp))
  {
    SortSorts(RuleIDLe, inp.rules);
  }

  lemma {:induction false} FirstItemIsFirst(items: seq<Item>, k: Key)
    requires HasItem(items, k) && ByID(items)
    ensures var first := FirstItem(items, k); first in items && first.key == k
    ensures forall it :: it in items && it.key == k ==> FirstItem(items, k).rule.id <= it.rule.id
  {
    var (init, last) := (items[..|items| - 1], items[|items| - 1]);
    assert forall it :: it in items <==> it in init || it == last;
    if HasItem(init, k) {
      FirstItemIsFirst(init, k);
      var first := FirstItem(init, k);
      var i :| 0 <= i < |init| && init[i] == first;
      assert items[i].rule.id <= items[|items| - 1].rule.id;
    }
  }

  lemma {:induction false} FirstCommentIsFirst(items: seq<Item>, k: Key)
    requires ByID(items)
    ensures FirstComment(items, k) == "" <==> forall it :: it in items && it.key == k ==> Trim(it.rule.comment) == ""
    ensures FirstComment(items, k) != "" ==>
              exists it :: it in items && it.key == k && Trim(it.rule.comment) == FirstComment(items, k)
                && forall x :: x in items && x.key == k && Trim(x.rule.comment) != "" ==> it.rule.id <= x.rule.id
  {
    hide Trim;
    if items != [] {
      var (init, last) := (items[..|items| - 1], items[|items| - 1]);
      assert forall it :: it in items <==> it in init || it == last;
      FirstCommentIsFirst(init, k);
      if FirstComment(init, k) != "" {
        var it :| it in init && it.key == k && Trim(it.rule.comment) == FirstComment(init, k)
          && forall x :: x in init && x.key == k && Trim(x.rule.comment) != "" ==> it.rule.id <= x.rule.id;
        var i :| 0 <= i < |init| && init[i] == it;
        assert items[i].rule.id <= items[|items| - 1].rule.id;
      }
    }
  }

  /** The comment of the asking rule with the lowest ID among those that have one; blank where none has. */
  ghost predicate CommentOf(inp: PlanInput, k: Key, comment: string) {
    if forall r :: AskingRule(inp, r, k) ==> Trim(r.comment) == "" then comment == ""
    else
      exists r :: AskingRule(inp, r, k) && Trim(r.comment) == comment != ""
        && forall q :: AskingRule(inp, q, k) && Trim(q.comment) != "" ==> r.id <= q.id
  }

  /** What is sent for a key is one of the ways its first rule asks for it. */
  ghost predicate ActionOf(inp: PlanInput, k: Key, a: RuleAction) {
    exists r, ip, word, text ::
      && AskingRule(inp, r, k) && (forall q :: AskingRule(inp, q, k) ==> r.id <= q.id) && AsksWith(inp, r, k, ip, word, text)
      && a == RuleAction(word, text, if k.family == IPv4 then Block(IPv4, k.cidr) else Blank,
                         if k.family == IPv6 then Block(IPv6, k.cidr) else Blank, k.action, a.description)
  }

  lemma CommentExactly(inp: PlanInput, k: Key)
    ensures CommentOf(inp, k, FirstComment(AllItems(inp, SortedRules(inp)), k))
  {
    hide Asks, AllItems, Trim, SortedRules;
    var items := AllItems(inp, SortedRules(inp));
    forall r ensures AskingRule(inp, r, k) <==> exists it :: it in items && it.key == k && it.rule == r { ItemsAskExactly(inp, r, k); }
    SortedByID(inp);
    ItemsAreByID(inp, SortedRules(inp));
    FirstCommentIsFirst(items, k);
    var c := FirstComment(items, k);
    if c != "" {
      var it :| it in items && it.key == k && Trim(it.rule.comment) == c
        && forall x :: x in items && x.key == k && Trim(x.rule.comment) != "" ==> it.rule.id <= x.rule.id;
      assert AskingRule(inp, it.rule, k);
    }
  }

  lemma ActionExactly(inp: PlanInput, k: Key, description: string)
    requires HasItem(AllItems(inp, SortedRules(inp)), k)
    ensures ActionOf(inp, k, FirstItem(AllItems(inp, SortedRules(inp)), k).action.(description := description))
  {
    hide AllItems, Trim, SortedRules, CanonicalPort, CanonicalProtocol, Upper, WordOf, PortText, UnsupportedReason;
    var items := AllItems(inp, SortedRules(inp));
    SortedByID(inp);
    ItemsAreByID(inp, SortedRules(inp));
    FirstItemIsFirst(items, k);
    var it := FirstItem(items, k);
    AllItemsExactly(inp, SortedRules(inp), it);
    var r, ip, word :| r in SortedRules(inp) && MadeBy(inp, r, ip, word, it);
    MadeAsks(inp, r, ip, word, it);
    assert MadeOn(inp.cloudType, r, ip, word, it);
    var text :| PortText(inp.cloudType, word, r.ports, text)
                && it == ItemOf(inp.cloudType, r, if ip.isIPv6 then IPv6 else IPv4, ip.prefix.value, word, text);
    assert AsksWith(inp, r, k, ip, word, text);
    forall q ensures AskingRule(inp, q, k) <==> exists x :: x in items && x.key == k && x.rule == q { ItemsAskExactly(inp, q, k); }
    assert AskingRule(inp, r, k);
  }

  /** Everything else a desired entry carries: the IDs and hosts of exactly the rules that ask for its key, each
      once and sorted, the first comment among them, and what the first of them sends. */
  lemma EntryIsMadeOfWishes(inp: PlanInput, d: PlannedRule)
    requires d in DesiredOf(inp)
    ensures forall id :: id in d.ruleIDs <==> exists r :: AskingRule(inp, r, d.key) && r.id == id
    ensures forall host :: host in d.domains <==> exists r :: AskingRule(inp, r, d.key) && r.host == host
    ensures SortedBy(IntLe, d.ruleIDs) && Distinct(d.ruleIDs) && SortedBy(StringLe, d.domains) && Distinct(d.domains)
    ensures CommentOf(inp, d.key, d.comment) && ActionOf(inp, d.key, d.action)
    ensures d.description == d.action.description == RenderDescription(inp.cloudType, inp.tag, d.comment)
  {
    hide DesiredOf, AllItems, SortedRules, AskingRule, CommentOf, ActionOf, RenderDescription, DistinctKeys, SortedBy, Distinct, FirstItem,
         RuleIDs, Hosts, FirstComment, Sort;
    var items := AllItems(inp, SortedRules(inp));
    DesiredIsExact(inp);
    assert DesiredFrom(inp, d);
    forall r ensures AskingRule(inp, r, d.key) <==> exists it :: it in items && it.key == d.key && it.rule == r { AskedByItem(inp, r, d.key); }
    var (ids, hosts) := (RuleIDs(items, d.key), Hosts(items, d.key));
    SortedUnique(IntLe, ids) by { RuleIDsExactly(items, d.key, 0); IntsAreOrdered(); }
    SortedUnique(StringLe, hosts) by { HostsExactly(items, d.key, ""); StringLeIsTotalOrder(); }
    forall id ensures id in d.ruleIDs <==> exists r :: AskingRule(inp, r, d.key) && r.id == id { RuleIDsExactly(items, d.key, id); }
    forall host ensures host in d.domains <==> exists r :: AskingRule(inp, r, d.key) && r.host == host { HostsExactly(items, d.key, host); }
    CommentExactly(inp, d.key);
    ActionExactly(inp, d.key, d.description);
  }

  lemma AskedByItem(inp: PlanInput, r: DomainRule, k: Key)
    ensures AskingRule(inp, r, k) <==> exists it :: it in AllItems(inp, SortedRules(inp)) && it.key == k && it.rule == r
  {
    hide Asks, AllItems, SortedRules;
    ItemsAskExactly(inp, r, k);
  }

  lemma IntsAreOrdered()
    ensures TotalPreorder(IntLe)
  {
  }

  lemma SortedUnique<T(!new)>(le: (T, T) -> bool, s: seq<T>)
    requires TotalPreorder(le) && Distinct(s)
    ensures SortedBy(le, Sort(le, s)) && Distinct(Sort(le, s)) && forall x :: x in Sort(le, s) <==> x in s
  {
    hide Sort;
    SortSorts(le, s);
    SortedElements(le, s);
    var r := Sort(le, s);
    forall i, j | 0 <= i < j < |r| ensures r[i] != r[j] {
      if r[i] == r[j] {
        TwiceInMultiset(r, i, j);
        OnceWhenDistinct(s, r[i]);
      }
    }
  }

  lemma {:induction false} OnceWhenDistinct<T>(s: seq<T>, x: T)
    requires Distinct(s)
    ensures multiset(s)[x] <= 1
  {
    if s != [] {
      var init := s[..|s| - 1];
      assert s == init + [s[|s| - 1]];
      OnceWhenDistinct(init, x);
      assert s[|s| - 1] !in init;
    }
  }

  // --------------------------------------------------------------------- DNS issues

  /** Why a rule is reported: its error, no address at all, or an address that is none. */
  ghost predicate Reported(inp: PlanInput, r: DomainRule, i: Issue) {
    var error := if r.id in inp.dnsErrors then Trim(inp.dnsErrors[r.id]) else "";
    if error != "" then i == Issue(DNSFailed, None, r.host, r.id, Says(error))
    else if r.id !in inp.resolved || inp.resolved[r.id] == [] then i == Issue(DNSEmpty, None, r.host, r.id, NoSubject)
    else i == Issue(DNSFailed, None, r.host, r.id, NoSubject) && exists ip :: ip in inp.resolved[r.id] && ip.prefix.None?
  }

  /** DNS answered a rule in full: no error, at least one address, and addresses alone. */
  ghost predicate Clear(inp: PlanInput, r: DomainRule) {
    && (r.id in inp.dnsErrors ==> Trim(inp.dnsErrors[r.id]) == "")
    && r.id in inp.resolved && inp.resolved[r.id] != [] && forall ip :: ip in inp.resolved[r.id] ==> ip.prefix.Some?
  }

  lemma {:induction false} AddressIssuesExactly(r: DomainRule, ips: seq<ResolvedIP>, i: Issue)
    ensures i in AddressesIssues(r, ips)
            <==> i == Issue(DNSFailed, None, r.host, r.id, NoSubject) && exists ip :: ip in ips && ip.prefix.None?
  {
    if ips != [] {
      var (init, last) := (ips[..|ips| - 1], ips[|ips| - 1]);
      assert forall x :: x in ips <==> x in init || x == last;
      AddressIssuesExactly(r, init, i);
    }
  }

  lemma {:induction false} RulesReported(inp: PlanInput, rules: seq<DomainRule>, i: Issue)
    ensures i in AllDNSIssues(inp, rules) <==> exists r :: r in rules && Reported(inp, r, i)
  {
    hide Trim, AddressesIssues;
    if rules != [] {
      var (init, last) := (rules[..|rules| - 1], rules[|rules| - 1]);
      assert forall r :: r in rules <==> r in init || r == last;
      RulesReported(inp, init, i);
      AddressIssuesExactly(last, ResolvedOf(inp, last), i);
      InConcat(AllDNSIssues(inp, init), RuleIssues(inp, last), i);
      assert i in RuleIssues(inp, last) <==> Reported(inp, last, i);
    }
  }

  /** The DNS issues of a plan are exactly the reports of its rules, and none means that DNS answered every rule
      in full. */
  lemma DNSIssuesExactly(inp: PlanInput)
    ensures forall i :: i in PlanSpec(inp).dnsErrors <==> exists r :: r in inp.rules && Reported(inp, r, i)
    ensures PlanSpec(inp).dnsErrors == []
            <==> forall r :: r in inp.rules ==> Clear(inp, r)
  {
    hide DesiredOf, AllDNSIssues, ConflictsOf, CoverageReadyOf, AllItems, Fold, GateIssues, CandidatesOf, Locatable, LocatorIssues, ToAddOf,
         MatchesOf, Sort, Trim, Clear, Reported;
    var all := AllDNSIssues(inp, SortedRules(inp));
    SortedElements(IssueLe, all);
    SortedElements(RuleIDLe, inp.rules);
    forall i ensures i in PlanSpec(inp).dnsErrors <==> exists r :: r in inp.rules && Reported(inp, r, i) {
      RulesReported(inp, SortedRules(inp), i);
    }
    var list := PlanSpec(inp).dnsErrors;
    forall r | r in inp.rules ensures list == [] ==> Clear(inp, r) {
      ClearExactly(inp, r);
      if !Clear(inp, r) {
        var i :| Reported(inp, r, i);
        assert i in list;
      }
    }
    if list != [] {
      assert list[0] in list;
      var r :| r in inp.rules && Reported(inp, r, list[0]);
      ClearExactly(inp, r);
    }
  }

  lemma ClearExactly(inp: PlanInput, r: DomainRule)
    ensures Clear(inp, r) <==> forall i :: !Reported(inp, r, i)
  {
    hide Trim;
    assert !Clear(inp, r) ==> || Reported(inp, r, Issue(DNSEmpty, None, r.host, r.id, NoSubject))
                              || Reported(inp, r, Issue(DNSFailed, None, r.host, r.id, NoSubject))
                              || (r.id in inp.dnsErrors && Reported(inp, r, Issue(DNSFailed, None, r.host, r.id, Says(Trim(inp.dnsErrors[r.id])))));
  }

  // ------------------------------------------------------------------ port values

  /** What a port item means in a key: ICMP has no ports, ALL is the full range on Alibaba, and a number or range
      is itself, except that Alibaba reads a range of one port as that port. */
  function PortMeaning(ct: CloudType, word: string, item: string): string {
    if word == "ICMP" then "ALL"
    else if EqualFold(item, "ALL") then (if Alibaba(ct) then "1-65535" else "ALL")
    else
      var i := IndexOf(item, '-');
      if Alibaba(ct) && i < |item| && item[..i] == item[i + 1..] then item[..i] else item
  }

  /** Every number, range and ALL is wished for as just that. */
  lemma PortsMeanThemselves(ct: CloudType, word: string, item: string)
    requires word in {"TCP", "UDP", "TCP+UDP", "ICMP"} && (EqualFold(item, "ALL") || Range(item))
    ensures CanonicalPort(word, WireItem(ct, word, item)) == PortMeaning(ct, word, item)
  {
    hide CanonicalPort, Trim, Upper, WireItem, EqualFold;
    if word == "ICMP" {
      assert CanonicalPort(word, WireItem(ct, word, item)) == "ALL" by { NoPortsInICMP(WireItem(ct, word, item)); }
    } else if EqualFold(item, "ALL") {
      AllMeans(ct, word, item);
    } else if Alibaba(ct) {
      SlashMeans(ct, word, item);
    } else {
      PlainMeans(ct, word, item);
    }
  }

  lemma NoPortsInICMP(port: string)
    ensures CanonicalPort("ICMP", port) == "ALL"
  {
    hide Trim, Upper;
  }

  lemma AllMeans(ct: CloudType, word: string, item: string)
    requires word in {"TCP", "UDP", "TCP+UDP"} && EqualFold(item, "ALL")
    ensures CanonicalPort(word, WireItem(ct, word, item)) == if Alibaba(ct) then "1-65535" else "ALL"
  {
    hide CanonicalPort, Trim, Upper, WireItem;
    PlainIsFixed("ALL");
    if Alibaba(ct) {
      FullRange(ct, word, item);
      FullRangeMeans(word);
    } else {
      FoldedAll(item);
      assert WireItem(ct, word, item) == "ALL" by { AllOnTencent(ct, word, item); }
      CanonicalWhole(word, "ALL");
    }
  }

  lemma AllOnTencent(ct: CloudType, word: string, item: string)
    requires !Alibaba(ct) && EqualFold(item, "ALL") && Trim(item) == item
    ensures WireItem(ct, word, item) == "ALL"
  {
    hide Trim, Upper;
  }

  lemma FullRangeMeans(word: string)
    requires word in {"TCP", "UDP", "TCP+UDP"}
    ensures CanonicalPort(word, "1" + "/" + "65535") == "1-65535"
  {
    hide CanonicalPort, Trim, Upper;
    PlainIsFixed("1");
    PlainIsFixed("65535");
    PlainIsFixed("1/65535");
    assert "1" + "/" + "65535" == "1/65535" && "1" + "-" + "65535" == "1-65535" && "1/65535"[0] == '1';
    CanonicalCut(word, "1", "65535");
  }

  lemma FoldedAll(item: string)
    requires Upper(item) == "ALL"
    ensures Trim(item) == item && Trimmed(item) && '/' !in item
  {
    hide UpperChar, Trim;
    NoSlashUpper(item);
    forall i | 0 <= i < 3 ensures UpperChar(item[i]) == "ALL"[i] && !IsSpace(item[i]) { UpperIsLetter(item[i]); }
    TrimOfTrimmed(item);
  }

  lemma UpperIsLetter(c: char)
    ensures UpperChar(c) == 'A' || UpperChar(c) == 'L' ==> !IsSpace(c)
  {
  }

  lemma RangeIsPlain(item: string)
    requires Range(item)
    ensures Plain(item) && item != "" && '/' !in item
    ensures var i := IndexOf(item, '-'); i < |item| ==> Digits(item[..i]) && Digits(item[i + 1..]) && '-' !in item[i + 1..]
  {
    var i := IndexOf(item, '-');
    forall k | 0 <= k < |item| ensures PlainChar(item[k]) && item[k] != '/' {
      if i == |item| { assert item[k] in item; }
      else if k < i { assert item[k] in item[..i]; }
      else if k > i { assert item[i + 1..][k - i - 1] == item[k]; assert item[k] in item[i + 1..]; }
    }
  }

  lemma SlashMeans(ct: CloudType, word: string, item: string)
    requires Alibaba(ct) && word in {"TCP", "UDP", "TCP+UDP"} && Range(item) && !EqualFold(item, "ALL")
    ensures CanonicalPort(word, WireItem(ct, word, item)) == PortMeaning(ct, word, item)
  {
    hide CanonicalPort, Trim, Upper, WireItem, EqualFold;
    RangeIsPlain(item);
    PlainIsFixed(item);
    WireOfItem(ct, word, item);
    var i := IndexOf(item, '-');
    if i < |item| {
      assert item == item[..i] + "-" + item[i + 1..];
      HalvesMean(word, item[..i], item[i + 1..]);
    } else {
      HalvesMean(word, item, item);
    }
  }

  lemma HalvesMean(word: string, a: string, b: string)
    requires word in {"TCP", "UDP", "TCP+UDP"} && Digits(a) && Digits(b)
    ensures CanonicalPort(word, a + "/" + b) == if a == b then a else a + "-" + b
  {
    hide CanonicalPort, Trim, Upper, Digits;
    DigitsPlain(a);
    DigitsPlain(b);
    assert Plain(a + "/" + b);
    PlainIsFixed(a + "/" + b);
    assert (a + "/" + b)[0] == a[0] && "-1/-1"[0] == '-';
    CanonicalCut(word, a, b);
  }

  lemma DigitsPlain(a: string)
    requires Digits(a)
    ensures Plain(a) && '/' !in a && a != "" && a[0] != '-' && Upper(a) == a
  {
    hide Upper, Trim;
    forall k | 0 <= k < |a| ensures PlainChar(a[k]) && a[k] != '/' && a[k] != '-' { assert a[k] in a; }
    PlainIsFixed(a);
  }

  lemma PlainMeans(ct: CloudType, word: string, item: string)
    requires !Alibaba(ct) && word in {"TCP", "UDP", "TCP+UDP"} && Range(item) && !EqualFold(item, "ALL")
    ensures CanonicalPort(word, WireItem(ct, word, item)) == item
  {
    hide CanonicalPort, Trim, Upper, EqualFold;
    RangeIsPlain(item);
    PlainIsFixed(item);
    CanonicalWhole(word, item);
    assert Digit(item[0]) by {
      var i := IndexOf(item, '-');
      assert i == |item| ==> item[0] in item;
      assert i < |item| ==> item[..i] != "" && item[..i][0] in item[..i];
    }
    assert "ALL"[0] == 'A' && "-1"[0] == '-';
  }
}
