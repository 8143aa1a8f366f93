/** The plan does not depend on the order in which rules, resolved addresses and snapshot entries
    arrive. */
module PlanOrder {
  import opened Text
  import opened Tag
  import opened Ports
  import opened Keys
  import opened Plan
  import opened PlanFacts
  import opened PlanTheorems
  import opened PlanCleanup
  import opened Validate

  // ---------------------------------------------------------------- permutations

  function Total<T>(f: T -> nat, s: seq<T>): nat {
    if s == [] then 0 else Total(f, s[..|s| - 1]) + f(s[|s| - 1])
  }

  lemma {:induction false} TotalConcat<T>(f: T -> nat, a: seq<T>, b: seq<T>)
    ensures Total(f, a + b) == Total(f, a) + Total(f, b)
  {
    if b == [] {
      assert a + b == a;
    } else {
      assert (a + b)[..|a + b| - 1] == a + b[..|b| - 1];
      TotalConcat(f, a, b[..|b| - 1]);
    }
  }

  /** A sum over a sequence depends only on its multiset. */
  lemma {:induction false} TotalOfPermutation<T>(f: T -> nat, a: seq<T>, b: seq<T>)
    requires multiset(a) == multiset(b)
    ensures Total(f, a) == Total(f, b)
    decreases |a|
  {
    SameLength(a, b);
    if a != [] {
      var init, x := a[..|a| - 1], a[|a| - 1];
      assert a == init + [x];
      assert x in multiset(b);
      var i :| 0 <= i < |b| && b[i] == x;
      var rest := b[..i] + b[i + 1..];
      assert b == b[..i] + [x] + b[i + 1..];
      assert multiset(rest) == multiset(b) - multiset{x} == multiset(init);
      TotalOfPermutation(f, init, rest);
      TotalConcat(f, b[..i] + [x], b[i + 1..]);
      TotalConcat(f, b[..i], [x]);
      TotalConcat(f, b[..i], b[i + 1..]);
      assert [x][..0] == [] && Total(f, [x]) == f(x);
    }
  }

  lemma {:induction false} DistinctCount<T>(s: seq<T>, x: T)
    requires Distinct(s)
    ensures multiset(s)[x] == if x in s then 1 else 0
  {
    if s != [] {
      var init, last := s[..|s| - 1], s[|s| - 1];
      assert s == init + [last];
      DistinctCount(init, x);
      assert last !in init;
    }
  }

  /** Two duplicate-free sequences with the same elements are permutations of each other. */
  lemma DistinctPermutation<T(!new)>(a: seq<T>, b: seq<T>)
    requires Distinct(a) && Distinct(b) && forall x :: x in a <==> x in b
    ensures multiset(a) == multiset(b)
  {
    forall x ensures multiset(a)[x] == multiset(b)[x] {
      DistinctCount(a, x);
      DistinctCount(b, x);
    }
  }

  // --------------------------------------------------------------- the two inputs

  ghost predicate SameUpToOrder(a: PlanInput, b: PlanInput) {
    && a.cloudType == b.cloudType && a.tag == b.tag && a.addStateUnknown == b.addStateUnknown
    && a.dnsErrors == b.dnsErrors && a.snapshot.revision == b.snapshot.revision
    && multiset(a.rules) == multiset(b.rules)
    && a.resolved.Keys == b.resolved.Keys
    && (forall id :: id in a.resolved ==> multiset(a.resolved[id]) == multiset(b.resolved[id]))
    && multiset(a.snapshot.rules) == multiset(b.snapshot.rules)
  }

  /** Rules as stored, and address texts without the separator of the key text. */
  ghost predicate Clean(inp: PlanInput) {
    && NormalInput(inp) && DistinctIDs(inp.rules)
    && (forall id, ip :: id in inp.resolved && ip in inp.resolved[id] && ip.prefix.Some? ==> NoBar(ip.prefix.value))
  }

  lemma RulesForgetOrder(a: PlanInput, b: PlanInput)
    requires SameUpToOrder(a, b) && DistinctIDs(a.rules)
    ensures SortedRules(a) == SortedRules(b)
  {
    assert Separates(RuleIDLe, a.rules) by {
      forall x, y | x in a.rules && y in a.rules && RuleIDLe(x, y) && RuleIDLe(y, x) ensures x == y {
        var i :| 0 <= i < |a.rules| && a.rules[i] == x;
        var j :| 0 <= j < |a.rules| && a.rules[j] == y;
        assert !(i < j) && !(j < i);
      }
    }
    SortForgetsOrder(RuleIDLe, a.rules, b.rules);
  }

  // ------------------------------------------------------ items, key by key

  lemma {:induction false} FirstItemOfConcat(x: seq<Item>, y: seq<Item>, k: Key)
    ensures HasItem(x + y, k) <==> HasItem(x, k) || HasItem(y, k)
    ensures HasItem(x, k) ==> FirstItem(x + y, k) == FirstItem(x, k)
    ensures !HasItem(x, k) && HasItem(y, k) ==> FirstItem(x + y, k) == FirstItem(y, k)
  {
    if y == [] {
      assert x + y == x;
    } else {
      var init, last := y[..|y| - 1], y[|y| - 1];
      assert (x + y)[..|x + y| - 1] == x + init;
      FirstItemOfConcat(x, init, k);
      assert forall it :: it in y <==> it in init || it == last;
      assert forall it :: it in x + y <==> it in x || it in y;
    }
  }

  /** The only resolved address that can contribute a key. */
  function OwnerOf(k: Key): ResolvedIP { ResolvedIP(Some(k.cidr), k.family == IPv6) }

  lemma {:induction false} PortItemsKeys(ct: CloudType, r: DomainRule, family: Family, cidr: string, proto: string, wire: seq<string>)
    ensures forall it :: it in PortItems(ct, r, family, cidr, proto, wire) ==> it.key.cidr == cidr && it.key.family == family
  {
    hide CanonicalPort, CanonicalProtocol, Upper, Trim;
    if wire != [] { PortItemsKeys(ct, r, family, cidr, proto, wire[..|wire| - 1]); }
  }

  lemma {:induction false} ProtocolItemsKeys(ct: CloudType, r: DomainRule, family: Family, cidr: string, protos: seq<string>)
    ensures forall it :: it in ProtocolItems(ct, r, family, cidr, protos) ==> it.key.cidr == cidr && it.key.family == family
  {
    hide PlannedPortsSpec;
    if protos != [] {
      var p := protos[|protos| - 1];
      ProtocolItemsKeys(ct, r, family, cidr, protos[..|protos| - 1]);
      PortItemsKeys(ct, r, family, cidr, p, PlannedPortsSpec(ct, p, r.ports));
    }
  }

  lemma AddressItemsOwner(ct: CloudType, r: DomainRule, ip: ResolvedIP, k: Key)
    requires HasItem(AddressItems(ct, r, ip), k)
    ensures ip == OwnerOf(k)
  {
    hide ProtocolsOf, ProtocolItems;
    if ip.prefix.Some? { ProtocolItemsKeys(ct, r, FamilyOf(ip), ip.prefix.value, ProtocolsOf(ct, r)); }
  }

  /** Whatever the order of the addresses, a key comes from its owner's items alone. */
  lemma {:induction false} AddressesByOwner(ct: CloudType, r: DomainRule, ips: seq<ResolvedIP>, k: Key)
    ensures HasItem(AddressesItems(ct, r, ips), k) <==> OwnerOf(k) in ips && HasItem(AddressItems(ct, r, OwnerOf(k)), k)
    ensures HasItem(AddressesItems(ct, r, ips), k)
            ==> FirstItem(AddressesItems(ct, r, ips), k) == FirstItem(AddressItems(ct, r, OwnerOf(k)), k)
  {
    hide AddressItems, HasItem, FirstItem;
    if ips == [] {
      assert !HasItem([], k) by { NothingHasNoItem(k); }
    } else {
      var init, last := ips[..|ips| - 1], ips[|ips| - 1];
      assert forall ip :: ip in ips <==> ip in init || ip == last;
      AddressesByOwner(ct, r, init, k);
      if HasItem(AddressItems(ct, r, last), k) { AddressItemsOwner(ct, r, last, k); }
      FirstItemOfConcat(AddressesItems(ct, r, init), AddressItems(ct, r, last), k);
    }
  }

  lemma NothingHasNoItem(k: Key)
    ensures !HasItem([], k)
  {
  }

  /** What the items of one rule contribute to the merged attributes of a key. */
  lemma {:induction false} AttributesOfConcat(x: seq<Item>, y: seq<Item>, r: DomainRule, k: Key)
    requires forall it :: it in y ==> it.rule == r
    ensures FirstComment(x + y, k) == if HasItem(y, k) && FirstComment(x, k) == "" then Trim(r.comment) else FirstComment(x, k)
    ensures RuleIDs(x + y, k) == if HasItem(y, k) then AppendUnique(RuleIDs(x, k), r.id) else RuleIDs(x, k)
    ensures Hosts(x + y, k) == if HasItem(y, k) then AppendUnique(Hosts(x, k), r.host) else Hosts(x, k)
  {
    hide Trim;
    if y == [] {
      assert x + y == x;
    } else {
      var init, last := y[..|y| - 1], y[|y| - 1];
      assert (x + y)[..|x + y| - 1] == x + init;
      assert forall it :: it in y <==> it in init || it == last;
      AttributesOfConcat(x, init, r, k);
    }
  }

  /** Same key, same merged entry. */
  ghost predicate SameEntries(x: seq<Item>, y: seq<Item>, k: Key) {
    && (HasItem(x, k) <==> HasItem(y, k))
    && (HasItem(x, k) ==> FirstItem(x, k) == FirstItem(y, k))
    && FirstComment(x, k) == FirstComment(y, k) && RuleIDs(x, k) == RuleIDs(y, k) && Hosts(x, k) == Hosts(y, k)
  }

  lemma RuleItemsForgetOrder(a: PlanInput, b: PlanInput, r: DomainRule, k: Key)
    requires SameUpToOrder(a, b)
    ensures HasItem(RuleItems(a, r), k) <==> HasItem(RuleItems(b, r), k)
    ensures HasItem(RuleItems(a, r), k) ==> FirstItem(RuleItems(a, r), k) == FirstItem(RuleItems(b, r), k)
  {
    hide HasItem, FirstItem, AddressesItems, AddressItems, Trim;
    SameElements(ResolvedOf(a, r), ResolvedOf(b, r));
    AddressesByOwner(a.cloudType, r, ResolvedOf(a, r), k);
    AddressesByOwner(b.cloudType, r, ResolvedOf(b, r), k);
  }

  lemma {:induction false} EntriesForgetOrder(a: PlanInput, b: PlanInput, rules: seq<DomainRule>, k: Key)
    requires SameUpToOrder(a, b)
    ensures SameEntries(AllItems(a, rules), AllItems(b, rules), k)
  {
    hide HasItem, FirstItem, FirstComment, RuleIDs, Hosts, RuleItems, SameUpToOrder, Trim;
    if rules == [] {
    } else {
      var init, r := rules[..|rules| - 1], rules[|rules| - 1];
      EntriesForgetOrder(a, b, init, k);
      RuleItemsForgetOrder(a, b, r, k);
      FirstItemOfConcat(AllItems(a, init), RuleItems(a, r), k);
      FirstItemOfConcat(AllItems(b, init), RuleItems(b, r), k);
      RuleItemsOfRule(a, r);
      RuleItemsOfRule(b, r);
      AttributesOfConcat(AllItems(a, init), RuleItems(a, r), r, k);
      AttributesOfConcat(AllItems(b, init), RuleItems(b, r), r, k);
    }
  }

  lemma RuleItemsOfRule(inp: PlanInput, r: DomainRule)
    ensures forall it :: it in RuleItems(inp, r) ==> it.rule == r
  {
    hide WellMade, AddressesItems, Trim;
    AddressesItemsWellMade(inp.cloudType, r, ResolvedOf(inp, r));
  }

  // --------------------------------------------------------- injective key texts

  lemma {:induction false} AllItemsNoBar(inp: PlanInput, rules: seq<DomainRule>)
    requires forall r :: r in rules ==> Normal(r)
    requires forall id, ip :: id in inp.resolved && ip in inp.resolved[id] && ip.prefix.Some? ==> NoBar(ip.prefix.value)
    ensures forall it :: it in AllItems(inp, rules) ==> NoBar(it.key.cidr) && NoBar(it.key.protocol) && NoBar(it.key.action)
  {
    hide WellMade, AddressesItems, AddressItems, Trim, Normal;
    if rules != [] {
      var init, r := rules[..|rules| - 1], rules[|rules| - 1];
      assert r in rules && forall x :: x in init ==> x in rules;
      AllItemsNoBar(inp, init);
      forall it | it in RuleItems(inp, r) ensures NoBar(it.key.cidr) && NoBar(it.key.protocol) && NoBar(it.key.action) {
        AddressesByOwner(inp.cloudType, r, ResolvedOf(inp, r), it.key);
        AddressesItemsWellMade(inp.cloudType, r, ResolvedOf(inp, r));
        WellMadeNoBar(inp.cloudType, it);
      }
    }
  }

  lemma WellMadeNoBar(ct: CloudType, it: Item)
    requires WellMade(ct, it) && Normal(it.rule)
    ensures NoBar(it.key.protocol) && NoBar(it.key.action)
  {
    hide CanonicalProtocol, CanonicalPort, Upper, Trim, ProtocolsOf, PlannedPortsSpec;
    ItemProtocol(ct, it.rule, it.action.protocol);
    NormalWordsAreFixed(it.rule);
  }

  /** Under a clean input the key text separates the keys of a plan. */
  lemma KeyTextSeparates(inp: PlanInput, x: Item, y: Item)
    requires Clean(inp)
    requires x in AllItems(inp, SortedRules(inp)) && y in AllItems(inp, SortedRules(inp))
    requires KeyString(x.key) == KeyString(y.key)
    ensures x.key == y.key
  {
    hide KeyString, AllItems, Normal;
    SortedElements(RuleIDLe, inp.rules);
    AllItemsNoBar(inp, SortedRules(inp));
    KeyStringInjective(x.key, y.key);
  }

  // ------------------------------------------------------------ the desired list

  lemma DesiredSeparates(inp: PlanInput)
    requires Clean(inp)
    ensures Separates(PlannedLe, DesiredOf(inp))
  {
    hide KeyString, AllItems, Clean, DesiredOf, WellMade, RenderDescription;
    DesiredIsExact(inp);
    var ds := DesiredOf(inp);
    forall x, y | x in ds && y in ds && PlannedLe(x, y) && PlannedLe(y, x) ensures x == y {
      StringLeAntisymmetric(KeyString(x.key), KeyString(y.key));
      DesiredEntryFits(inp, x);
      DesiredEntryFits(inp, y);
      var ix :| ix in AllItems(inp, SortedRules(inp)) && ix.key == x.key;
      var iy :| iy in AllItems(inp, SortedRules(inp)) && iy.key == y.key;
      KeyTextSeparates(inp, ix, iy);
      SameKeySameEntry(ds, x, y);
    }
  }

  lemma SameKeySameEntry(ds: seq<PlannedRule>, x: PlannedRule, y: PlannedRule)
    requires DistinctKeys(ds) && x in ds && y in ds && x.key == y.key
    ensures x == y
  {
    var i :| 0 <= i < |ds| && ds[i] == x;
    var j :| 0 <= j < |ds| && ds[j] == y;
    assert !(i < j) && !(j < i);
  }

  lemma DesiredElements(a: PlanInput, b: PlanInput, d: PlannedRule)
    requires SameUpToOrder(a, b) && SortedRules(a) == SortedRules(b) && d in DesiredOf(a)
    ensures d in DesiredOf(b)
  {
    hide AllItems, SameUpToOrder, DesiredOf, FirstItem, FirstComment, RuleIDs, Hosts, RenderDescription;
    DesiredIsExact(a);
    DesiredIsExact(b);
    EntriesForgetOrder(a, b, SortedRules(a), d.key);
    var y := AllItems(b, SortedRules(b));
    assert DesiredFrom(a, d);
    assert HasItem(y, d.key);
    var e :| e in DesiredOf(b) && e.key == d.key;
    assert DesiredFrom(b, e);
    assert a.cloudType == b.cloudType && a.tag == b.tag by { SameSettings(a, b); }
    assert Entry(AllItems(a, SortedRules(a)), d.key) == Entry(y, d.key);
    assert e == d;
  }

  lemma SameSettings(a: PlanInput, b: PlanInput)
    requires SameUpToOrder(a, b)
    ensures a.cloudType == b.cloudType && a.tag == b.tag && SameUpToOrder(b, a)
  {
  }

  lemma DistinctKeysDistinct(ps: seq<PlannedRule>)
    requires DistinctKeys(ps)
    ensures Distinct(ps)
  {
  }

  lemma DesiredForgetsOrder(a: PlanInput, b: PlanInput)
    requires SameUpToOrder(a, b) && Clean(a)
    ensures DesiredOf(a) == DesiredOf(b)
  {
    hide DesiredOf, AllItems, SameUpToOrder, DesiredFrom;
    RulesForgetOrder(a, b) by { assert DistinctIDs(a.rules) by { CleanHasIDs(a); } }
    SameSettings(a, b);
    var da, db := DesiredOf(a), DesiredOf(b);
    DesiredIsExact(a);
    DesiredIsExact(b);
    forall d ensures d in da <==> d in db {
      if d in da { DesiredElements(a, b, d); }
      if d in db { DesiredElements(b, a, d); }
    }
    DistinctKeysDistinct(da);
    DistinctKeysDistinct(db);
    DistinctPermutation(da, db);
    PlannedLeIsTotalPreorder();
    DesiredSeparates(a);
    SortedPermutationsAgree(PlannedLe, da, db);
  }

  lemma CleanHasIDs(inp: PlanInput)
    requires Clean(inp)
    ensures DistinctIDs(inp.rules)
  {
  }
}
