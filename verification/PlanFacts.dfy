/** Properties of the plan: what is expected, what is added, and what may be removed. */
module PlanFacts {
  import opened Text
  import opened Tag
  import opened Ports
  import opened Keys
  import opened Plan

  // ------------------------------------------------------ merging expectations

  ghost predicate DistinctKeys(ps: seq<PlannedRule>) {
    forall i, j :: 0 <= i < j < |ps| ==> ps[i].key != ps[j].key
  }

  ghost predicate HasItem(items: seq<Item>, k: Key) {
    exists it :: it in items && it.key == k
  }

  /** The first item of a key decides the wire form. */
  ghost function FirstItem(items: seq<Item>, k: Key): Item
    requires HasItem(items, k)
  {
    var init := items[..|items| - 1];
    assert forall it :: it in items <==> it in init || it == items[|items| - 1];
    if HasItem(init, k) then FirstItem(init, k) else items[|items| - 1]
  }

  /** The first non-empty comment in rule order. */
  ghost function FirstComment(items: seq<Item>, k: Key): string {
    if items == [] then ""
    else
      var c := FirstComment(items[..|items| - 1], k);
      var it := items[|items| - 1];
      if c == "" && it.key == k then Trim(it.rule.comment) else c
  }

  ghost function RuleIDs(items: seq<Item>, k: Key): seq<int> {
    if items == [] then []
    else
      var ids := RuleIDs(items[..|items| - 1], k);
      if items[|items| - 1].key == k then AppendUnique(ids, items[|items| - 1].rule.id) else ids
  }

  ghost function Hosts(items: seq<Item>, k: Key): seq<string> {
    if items == [] then []
    else
      var hs := Hosts(items[..|items| - 1], k);
      if items[|items| - 1].key == k then AppendUnique(hs, items[|items| - 1].rule.host) else hs
  }

  /** What merging must produce for one key, written without the running list. */
  ghost function Entry(items: seq<Item>, k: Key): PlannedRule
    requires HasItem(items, k)
  {
    var first := FirstItem(items, k);
    PlannedRule(k, FirstComment(items, k), "", RuleIDs(items, k), Hosts(items, k), first.reason.None?, first.action)
  }

  lemma {:induction false} NoItemNoFold(items: seq<Item>, k: Key)
    requires !HasItem(items, k)
    ensures FirstComment(items, k) == "" && RuleIDs(items, k) == [] && Hosts(items, k) == []
  {
    if items != [] {
      var init := items[..|items| - 1];
      assert items[|items| - 1] in items;
      assert !HasItem(init, k) by { assert forall it :: it in init ==> it in items; }
      NoItemNoFold(init, k);
    }
  }

  /** One entry per occurring key, each with the first wire form, the first non-empty comment and all
      contributing rules. */
  ghost predicate Exact(items: seq<Item>, ps: seq<PlannedRule>) {
    && DistinctKeys(ps)
    && (forall p :: p in ps ==> HasItem(items, p.key) && p == Entry(items, p.key))
    && (forall k :: HasItem(items, k) ==> exists p :: p in ps && p.key == k)
  }

  lemma {:induction false} MergingIsExact(items: seq<Item>)
    ensures Exact(items, Fold(NOTHING, items).desired)
  {
    if items != [] {
      var init, it := items[..|items| - 1], items[|items| - 1];
      MergingIsExact(init);
      MergeKeepsExact(init, it, items, Fold(NOTHING, init).desired);
    }
  }

  lemma MergeKeepsExact(init: seq<Item>, it: Item, items: seq<Item>, ps: seq<PlannedRule>)
    requires items != [] && init == items[..|items| - 1] && it == items[|items| - 1]
    requires Exact(init, ps)
    ensures Exact(items, Merge(ps, it))
  {
    hide Entry;
    assert forall x :: x in items <==> x in init || x == it;
    var i := FindKey(ps, it.key);
    var r := Merge(ps, it);
    forall p | p in r ensures HasItem(items, p.key) && p == Entry(items, p.key) {
      var n :| 0 <= n < |r| && r[n] == p;
      if p.key == it.key {
        MergedEntryIsExact(ps, init, it, items);
      } else {
        assert n < |ps| && ps[n] == p;
        EntryOfOther(init, it, items, p.key);
      }
    }
    forall k | HasItem(items, k) ensures exists p :: p in r && p.key == k {
      if k == it.key {
        assert r[i].key == k;
      } else {
        assert HasItem(init, k);
        var q :| q in ps && q.key == k;
        var n :| 0 <= n < |ps| && ps[n] == q;
        assert r[n] == q;
      }
    }
  }

  lemma EntryOfOther(init: seq<Item>, it: Item, items: seq<Item>, k: Key)
    requires items != [] && init == items[..|items| - 1] && it == items[|items| - 1]
    requires it.key != k && HasItem(init, k)
    ensures HasItem(items, k) && Entry(items, k) == Entry(init, k)
  {
    assert forall x :: x in init ==> x in items;
  }

  lemma MergedEntryIsExact(old_: seq<PlannedRule>, init: seq<Item>, it: Item, items: seq<Item>)
    requires items != [] && init == items[..|items| - 1] && it == items[|items| - 1]
    requires DistinctKeys(old_)
    requires forall p :: p in old_ ==> HasItem(init, p.key) && p == Entry(init, p.key)
    requires forall k :: HasItem(init, k) ==> exists p :: p in old_ && p.key == k
    ensures HasItem(items, it.key)
    ensures forall p :: p in Merge(old_, it) && p.key == it.key ==> p == Entry(items, it.key)
  {
    assert it in items;
    var i := FindKey(old_, it.key);
    if i < |old_| {
      assert HasItem(init, it.key);
    } else {
      assert !HasItem(init, it.key);
      NoItemNoFold(init, it.key);
    }
  }

  lemma {:induction false} NotedIsExact(items: seq<Item>)
    ensures var us := Fold(NOTHING, items).unsupported;
            us == [] <==> forall it :: it in items ==> it.reason.None?
  {
    if items != [] {
      var init, it := items[..|items| - 1], items[|items| - 1];
      assert forall x :: x in items <==> x in init || x == it;
      NotedIsExact(init);
    }
  }

  // ------------------------------------------------------------ shape of items

  /** What every item of a plan satisfies: the reason is decided by the key, and the action it would
      write is addressed by the key's own family and prefix. */
  ghost predicate WellMade(ct: CloudType, it: Item) {
    && it.reason == UnsupportedReason(Capabilities(ct), it.key.family, it.key.protocol, it.key.action)
    && RuleAddress(it.action.cidrBlock, it.action.ipv6CidrBlock) == Some((it.key.family, it.key.cidr))
    && CanonicalProtocol(it.action.protocol) == it.key.protocol
    && it.action.action == it.key.action == Upper(Trim(it.rule.action))
    && CanonicalPort(it.key.protocol, it.action.port) == it.key.port
    && it.action.protocol in ProtocolsOf(ct, it.rule)
    && it.action.port in PlannedPortsSpec(ct, it.action.protocol, it.rule.ports)
  }

  lemma {:induction false} PortItemsWellMade(ct: CloudType, r: DomainRule, family: Family, cidr: string, proto: string, wire: seq<string>)
    requires proto in ProtocolsOf(ct, r)
    requires forall w :: w in wire ==> w in PlannedPortsSpec(ct, proto, r.ports)
    ensures forall it :: it in PortItems(ct, r, family, cidr, proto, wire) ==> WellMade(ct, it) && it.rule == r
  {
    hide CanonicalPort, CanonicalProtocol, ProtocolsOf, PlannedPortsSpec, Upper, Trim;
    if wire != [] {
      assert wire[|wire| - 1] in wire;
      PortItemsWellMade(ct, r, family, cidr, proto, wire[..|wire| - 1]);
    }
  }

  lemma {:induction false} ProtocolItemsWellMade(ct: CloudType, r: DomainRule, family: Family, cidr: string, protos: seq<string>)
    requires forall p :: p in protos ==> p in ProtocolsOf(ct, r)
    ensures forall it :: it in ProtocolItems(ct, r, family, cidr, protos) ==> WellMade(ct, it) && it.rule == r
  {
    hide ProtocolsOf, PlannedPortsSpec, WellMade;
    if protos != [] {
      var p := protos[|protos| - 1];
      assert p in protos;
      ProtocolItemsWellMade(ct, r, family, cidr, protos[..|protos| - 1]);
      PortItemsWellMade(ct, r, family, cidr, p, PlannedPortsSpec(ct, p, r.ports));
    }
  }

  lemma {:induction false} AddressesItemsWellMade(ct: CloudType, r: DomainRule, ips: seq<ResolvedIP>)
    ensures forall it :: it in AddressesItems(ct, r, ips) ==> WellMade(ct, it) && it.rule == r
  {
    hide ProtocolsOf, WellMade, ProtocolItems;
    if ips != [] {
      var ip := ips[|ips| - 1];
      AddressesItemsWellMade(ct, r, ips[..|ips| - 1]);
      if ip.prefix.Some? {
        ProtocolItemsWellMade(ct, r, FamilyOf(ip), ip.prefix.value, ProtocolsOf(ct, r));
      }
    }
  }

  lemma {:induction false} AllItemsWellMade(inp: PlanInput, rules: seq<DomainRule>)
    ensures forall it :: it in AllItems(inp, rules) ==> WellMade(inp.cloudType, it) && it.rule in rules
  {
    hide WellMade, AddressesItems, Trim;
    if rules != [] {
      var r := rules[|rules| - 1];
      AllItemsWellMade(inp, rules[..|rules| - 1]);
      AddressesItemsWellMade(inp.cloudType, r, ResolvedOf(inp, r));
    }
  }

  // ------------------------------------------------------------- the desired set

  /** A desired entry comes from a key of the unrolled expectations: the same identity, ability and
      wire form, only rendered. */
  ghost predicate DesiredFrom(inp: PlanInput, d: PlannedRule) {
    var items := AllItems(inp, SortedRules(inp));
    && HasItem(items, d.key)
    && d == Rendered(inp, Entry(items, d.key))
  }

  lemma PlannedLeIsTotalPreorder()
    ensures TotalPreorder(PlannedLe)
  {
    KeyLeIsTotalPreorder();
    forall a, b ensures PlannedLe(a, b) || PlannedLe(b, a) { assert KeyLe(a.key, b.key) || KeyLe(b.key, a.key); }
    forall a, b, c | PlannedLe(a, b) && PlannedLe(b, c) ensures PlannedLe(a, c) {
      assert KeyLe(a.key, b.key) && KeyLe(b.key, c.key);
    }
  }

  lemma DistinctSurvivesPermutation(a: seq<PlannedRule>, b: seq<PlannedRule>)
    requires multiset(a) == multiset(b) && DistinctKeys(a)
    ensures DistinctKeys(b)
  {
    forall i, j | 0 <= i < j < |b| ensures b[i].key != b[j].key {
      if b[i] == b[j] {
        TwiceInMultiset(b, i, j);
        OnceInMultiset(a, b[i]);
      } else {
        SameElements(a, b);
        assert b[i] in b && b[j] in b;
        var m :| 0 <= m < |a| && a[m] == b[i];
        var n :| 0 <= n < |a| && a[n] == b[j];
        assert m < n || n < m;
      }
    }
  }

  lemma {:induction false} OnceInMultiset(s: seq<PlannedRule>, x: PlannedRule)
    requires DistinctKeys(s)
    ensures multiset(s)[x] <= 1
  {
    if s != [] {
      var init := s[..|s| - 1];
      assert s == init + [s[|s| - 1]];
      OnceInMultiset(init, x);
      assert forall i :: 0 <= i < |init| ==> init[i].key != s[|s| - 1].key;
      assert s[|s| - 1] !in init && s[|s| - 1] !in multiset(init);
    }
  }

  /** The expectations of a plan: pairwise distinct keys in the order of their text, exactly the keys
      of the unrolled expectations, each merged exactly. */
  lemma DesiredIsExact(inp: PlanInput)
    ensures var ds := DesiredOf(inp);
            && DistinctKeys(ds) && SortedBy(PlannedLe, ds)
            && (forall d :: d in ds ==> DesiredFrom(inp, d))
            && (forall k :: HasItem(AllItems(inp, SortedRules(inp)), k) ==> k in DesiredKeys(ds))
  {
    hide AllItems, Rendered, KeyLe, Fold, Entry, SortedRules, Insert;
    var items := AllItems(inp, SortedRules(inp));
    var merged := MergedOf(inp).desired;
    var rendered := RenderedAll(inp, merged);
    MergingIsExact(items);
    assert DistinctKeys(rendered) by { forall p ensures Rendered(inp, p).key == p.key { RenderingKeepsKey(inp, p); } }
    PlannedLeIsTotalPreorder();
    SortSorts(PlannedLe, rendered);
    var ds := DesiredOf(inp);
    SortedElements(PlannedLe, rendered);
    DistinctSurvivesPermutation(rendered, ds);
    forall d | d in ds ensures DesiredFrom(inp, d) {
      var i :| 0 <= i < |rendered| && rendered[i] == d;
      assert merged[i] in merged;
      RenderingKeepsKey(inp, merged[i]);
    }
    forall k | HasItem(items, k) ensures k in DesiredKeys(ds) {
      var p :| p in merged && p.key == k;
      var i :| 0 <= i < |merged| && merged[i] == p;
      RenderingKeepsKey(inp, p);
      assert rendered[i] in rendered;
    }
  }

  lemma RenderingKeepsKey(inp: PlanInput, p: PlannedRule)
    ensures Rendered(inp, p).key == p.key && Rendered(inp, p).implementable == p.implementable
    ensures Rendered(inp, p).action == p.action.(description := RenderDescription(inp.cloudType, inp.tag, p.comment))
  {
    hide RenderDescription;
  }

  /** Everything a desired entry carries fits its key, and what it would write is owned by the TAG. */
  lemma DesiredEntryFits(inp: PlanInput, d: PlannedRule)
    requires d in DesiredOf(inp)
    ensures exists it ::
              && it in AllItems(inp, SortedRules(inp)) && it.key == d.key && WellMade(inp.cloudType, it)
              && d.implementable == it.reason.None?
              && d.action == it.action.(description := d.description)
    ensures ']' !in inp.tag ==> IsOwned(d.action.description, inp.tag)
  {
    hide AllItems, WellMade, RenderDescription, TruncateDescription, IsOwned, FirstComment, RuleIDs, Hosts;
    DesiredIsExact(inp);
    var items := AllItems(inp, SortedRules(inp));
    assert DesiredFrom(inp, d);
    FirstItemIsThere(items, d.key);
    var it := FirstItem(items, d.key);
    AllItemsWellMade(inp, SortedRules(inp));
    RenderingKeepsKey(inp, Entry(items, d.key));
    assert it in items && it.key == d.key && WellMade(inp.cloudType, it);
    if ']' !in inp.tag {
      RenderedStaysOwned(inp.cloudType, inp.tag, d.comment);
    }
  }

  lemma {:induction false} FirstItemIsThere(items: seq<Item>, k: Key)
    requires HasItem(items, k)
    ensures FirstItem(items, k) in items && FirstItem(items, k).key == k
  {
    var init := items[..|items| - 1];
    assert forall it :: it in items <==> it in init || it == items[|items| - 1];
    if HasItem(init, k) { FirstItemIsThere(init, k); }
  }
}
